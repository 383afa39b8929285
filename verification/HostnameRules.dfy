/** Which custom-domain hostnames are accepted, said of the labels they are made of. */
module HostnameRules {
  import opened Text
  import opened HostNames
  import opened AliasNames

  lemma {:induction false} SplitJoinsBack(s: string, c: char)
    ensures Join(Split(s, c), [c]) == s && forall i :: 0 <= i < |Split(s, c)| ==> c !in Split(s, c)[i]
    ensures |Split(s, c)| > 1 <==> c in s
    decreases |s|
  {
    var cut := CutAt(s, c);
    if cut.found {
      var rest := Split(cut.after, c);
      SplitJoinsBack(cut.after, c);
      JoinFirst(cut.before, rest, c);
    }
  }

  lemma JoinFirst(first: string, rest: seq<string>, c: char)
    requires rest != []
    ensures Join([first] + rest, [c]) == first + [c] + Join(rest, [c])
  {
    assert ([first] + rest)[1..] == rest;
  }

  /** One to 63 lower-case letters, digits and inner hyphens. */
  predicate Label(s: string) {
    && 1 <= |s| <= 63 && s[0] != '-' && s[|s| - 1] != '-'
    && forall i :: 0 <= i < |s| ==> 'a' <= s[i] <= 'z' || '0' <= s[i] <= '9' || s[i] == '-'
  }

  lemma LabelIff(s: string)
    ensures IsLabel(s) <==> Label(s)
  {
  }

  /** What is wrong with a label, the first complaint first. */
  function LabelFault(s: string): Reason {
    if s == "" then EmptyLabel else if |s| > 63 then LongLabel else BadLabel
  }

  lemma {:induction false} FirstFault(labels: seq<string>)
    ensures LabelComplaint(labels).NoComplaint? <==> forall i :: 0 <= i < |labels| ==> Label(labels[i])
    ensures forall i: nat :: i < |labels| && !Label(labels[i]) && (forall j :: 0 <= j < i ==> Label(labels[j])) ==> LabelComplaint(labels) == Complaint(LabelFault(labels[i]))
  {
    if labels != [] {
      LabelIff(labels[0]);
      FirstFault(labels[1..]);
      assert forall i :: 0 < i < |labels| ==> labels[i] == labels[1..][i - 1];
    }
  }

  /** The name, normalised, is labels joined with dots. */
  ghost predicate MadeOf(n: string, labels: seq<string>) {
    labels != [] && n == Join(labels, ".") && forall i :: 0 <= i < |labels| ==> '.' !in labels[i]
  }

  predicate Numeric(s: string) {
    forall i :: 0 <= i < |s| ==> '0' <= s[i] <= '9'
  }

  predicate Inside(n: string, own: string) {
    own != "" && (n == own || HasSuffix(n, "." + own))
  }

  /** Every hostname is accepted as its normal form, or refused for the first rule it breaks:
      it is something, of at most 253 characters, with a dot; its labels are labels, the last
      is not a number, and it is outside the gateway's own domain. */
  ghost predicate Judged(v: Verdict, n: string, labels: seq<string>, own: string) {
    if n == "" then v == Refused(Empty)
    else if |n| > 253 then v == Refused(TooLong)
    else if |labels| < 2 then v == Refused(NotFull)
    else if exists i :: 0 <= i < |labels| && !Label(labels[i]) then
      forall i: nat :: i < |labels| && !Label(labels[i]) && (forall j :: 0 <= j < i ==> Label(labels[j])) ==> v == Refused(LabelFault(labels[i]))
    else if Numeric(labels[|labels| - 1]) then v == Refused(NumericEnd)
    else if Inside(n, own) then v == Refused(OwnDomain)
    else v == Accepted(n)
  }

  lemma LabelsAreSplit(n: string, labels: seq<string>)
    requires MadeOf(n, labels)
    ensures Split(n, '.') == labels && (|labels| > 1 <==> '.' in n)
  {
    SplitJoin(labels, '.');
    SplitJoinsBack(n, '.');
  }

  lemma CheckJudges(n: string, labels: seq<string>, own: string)
    requires MadeOf(n, labels)
    ensures Judged(CheckHostname(n, own), n, labels, own)
  {
    LabelsAreSplit(n, labels);
    FirstFault(labels);
  }

  lemma HostnameIsJudged(typed: string, domain: string, labels: seq<string>)
    requires MadeOf(TrimDot(ToLower(TrimSpace(typed))), labels)
    ensures Judged(ValidAliasHostname(typed, domain), TrimDot(ToLower(TrimSpace(typed))), labels, ToLower(TrimSpace(domain)))
  {
    CheckJudges(Normal(typed), labels, ToLower(TrimSpace(domain)));
  }

  /** Every name is made of labels, so every hostname is judged. */
  lemma EveryNameIsMade(n: string)
    ensures MadeOf(n, Split(n, '.'))
  {
    SplitJoinsBack(n, '.');
  }

  // ----- Trimming -----

  ghost predicate AllSpace(s: string) {
    forall i :: 0 <= i < |s| ==> IsSpace(s[i])
  }

  /** Trimming drops white space at the ends and nothing else: what is left begins and ends
      with something else. */
  lemma {:induction false} TrimmedIsMiddle(s: string) returns (a: string, b: string)
    ensures s == a + TrimSpace(s) + b && AllSpace(a) && AllSpace(b)
    ensures TrimSpace(s) != "" ==> !IsSpace(TrimSpace(s)[0]) && !IsSpace(TrimSpace(s)[|TrimSpace(s)| - 1])
    decreases |s|
  {
    a, b := "", "";
    if s != "" && IsSpace(s[0]) {
      a, b := TrimmedIsMiddle(s[1..]);
      a := [s[0]] + a;
      assert s == [s[0]] + s[1..];
    } else if s != "" && IsSpace(s[|s| - 1]) {
      var n := |s| - 1;
      a, b := TrimmedIsMiddle(s[..n]);
      b := b + [s[n]];
      assert s == s[..n] + [s[n]];
    }
  }
}
