/** Session tokens of the metadata service: a claim, its expiry and a signature. */
module MetadataToken {
  import opened Text
  import opened Basics

  // ----- base64url without padding, section 5 of RFC 4648 -----

  function Symbol(n: nat): (c: char)
    requires n < 64
    ensures SymbolValue(c) == Some(n)
  {
    if n < 26 then 'A' + n as char
    else if n < 52 then 'a' + (n - 26) as char
    else if n < 62 then '0' + (n - 52) as char
    else if n == 62 then '-'
    else '_'
  }

  function SymbolValue(c: char): (r: Option<nat>)
    ensures r.Some? ==> r.value < 64 && c != '.' && c != '\r' && c != '\n'
  {
    if 'A' <= c <= 'Z' then Some(c as int - 'A' as int)
    else if 'a' <= c <= 'z' then Some(c as int - 'a' as int + 26)
    else if '0' <= c <= '9' then Some(c as int - '0' as int + 52)
    else if c == '-' then Some(62)
    else if c == '_' then Some(63)
    else None
  }

  function Encode(b: seq<Byte>): string {
    if |b| == 0 then ""
    else if |b| == 1 then [Symbol(b[0] / 4), Symbol(b[0] % 4 * 16)]
    else if |b| == 2 then [Symbol(b[0] / 4), Symbol(b[0] % 4 * 16 + b[1] / 16), Symbol(b[1] % 16 * 4)]
    else Quad(b[0], b[1], b[2]) + Encode(b[3..])
  }

  function Quad(x: Byte, y: Byte, z: Byte): string {
    [Symbol(x / 4), Symbol(x % 4 * 16 + y / 16), Symbol(y % 16 * 4 + z / 64), Symbol(z % 64)]
  }

  /** Line breaks are skipped wherever they stand. */
  function Unbroken(s: string): string {
    if s == "" then ""
    else if s[0] == '\r' || s[0] == '\n' then Unbroken(s[1..])
    else [s[0]] + Unbroken(s[1..])
  }

  /** Four symbols at a time; the spare bits of a short last group are ignored. */
  function Groups(s: string): Option<seq<Byte>> {
    if |s| == 0 then Some([])
    else if |s| == 1 then None
    else
      var a, b := SymbolValue(s[0]), SymbolValue(s[1]);
      if a.None? || b.None? then None
      else
        var first := a.value * 4 + b.value / 16;
        if |s| == 2 then Some([first])
        else
          var c := SymbolValue(s[2]);
          if c.None? then None
          else
            var second := b.value % 16 * 16 + c.value / 4;
            if |s| == 3 then Some([first, second])
            else
              var d, rest := SymbolValue(s[3]), Groups(s[4..]);
              if d.None? || rest.None? then None
              else Some([first, second, c.value % 4 * 64 + d.value] + rest.value)
  }

  function Decode(s: string): Option<seq<Byte>> {
    Groups(Unbroken(s))
  }

  lemma {:induction false} EncodedSymbols(b: seq<Byte>)
    ensures forall i :: 0 <= i < |Encode(b)| ==> SymbolValue(Encode(b)[i]).Some?
    decreases |b|
  {
    if |b| >= 3 {
      EncodedSymbols(b[3..]);
    }
  }

  lemma {:induction false} NothingBroken(s: string)
    requires forall i :: 0 <= i < |s| ==> s[i] != '\r' && s[i] != '\n'
    ensures Unbroken(s) == s
  {
    if s != "" {
      NothingBroken(s[1..]);
    }
  }

  lemma FirstByte(x: Byte, y: Byte)
    ensures x / 4 * 4 + (x % 4 * 16 + y / 16) / 16 == x && (x % 4 * 16 + y / 16) % 16 == y / 16
  {
  }

  lemma SecondByte(y: Byte, z: Byte)
    ensures y / 16 * 16 + (y % 16 * 4 + z / 64) / 4 == y && (y % 16 * 4 + z / 64) % 4 == z / 64
  {
  }

  lemma QuadReads(x: Byte, y: Byte, z: Byte, s: string)
    requires Groups(s).Some?
    ensures Groups(Quad(x, y, z) + s) == Some([x, y, z] + Groups(s).value)
  {
    var a, b, c, d := x / 4, x % 4 * 16 + y / 16, y % 16 * 4 + z / 64, z % 64;
    FourSymbols(a, b, c, d, s);
    FirstByte(x, y);
    SecondByte(y, z);
    assert [a * 4 + b / 16, b % 16 * 16 + c / 4, c % 4 * 64 + d] == [x, y, z];
  }

  lemma FourSymbols(a: nat, b: nat, c: nat, d: nat, s: string)
    requires a < 64 && b < 64 && c < 64 && d < 64 && Groups(s).Some?
    ensures Groups([Symbol(a), Symbol(b), Symbol(c), Symbol(d)] + s)
         == Some([a * 4 + b / 16, b % 16 * 16 + c / 4, c % 4 * 64 + d] + Groups(s).value)
  {
    var t := [Symbol(a), Symbol(b), Symbol(c), Symbol(d)] + s;
    assert t[4..] == s;
  }

  lemma ThreeSymbols(a: nat, b: nat, c: nat)
    requires a < 64 && b < 64 && c < 64
    ensures Groups([Symbol(a), Symbol(b), Symbol(c)]) == Some([a * 4 + b / 16, b % 16 * 16 + c / 4])
  {
  }

  lemma LastTwo(x: Byte, y: Byte)
    ensures Groups(Encode([x, y])) == Some([x, y])
  {
    FirstByte(x, y);
    SecondByte(y, 0);
    assert y % 16 * 4 + 0 / 64 == y % 16 * 4;
    ThreeSymbols(x / 4, x % 4 * 16 + y / 16, y % 16 * 4);
  }

  lemma LastOne(x: Byte)
    ensures Groups(Encode([x])) == Some([x])
  {
    FirstByte(x, 0);
    assert x % 4 * 16 + 0 / 16 == x % 4 * 16;
  }

  lemma {:induction false} GroupsOfEncoded(b: seq<Byte>)
    ensures Groups(Encode(b)) == Some(b)
    decreases |b|
  {
    if |b| >= 3 {
      GroupsOfEncoded(b[3..]);
      QuadReads(b[0], b[1], b[2], Encode(b[3..]));
      assert b == [b[0], b[1], b[2]] + b[3..];
    } else if |b| == 2 {
      LastTwo(b[0], b[1]);
      assert b == [b[0], b[1]];
    } else if |b| == 1 {
      LastOne(b[0]);
      assert b == [b[0]];
    }
  }

  /** Every byte string survives encoding, and no field contains the separator. */
  lemma DecodeEncode(b: seq<Byte>)
    ensures Decode(Encode(b)) == Some(b) && '.' !in Encode(b)
  {
    EncodedSymbols(b);
    NothingBroken(Encode(b));
    GroupsOfEncoded(b);
  }

  // ----- Tokens -----

  /** The last index of c, or -1. */
  function LastIndexOf(s: string, c: char): (n: int)
    ensures -1 <= n < |s| && (n >= 0 ==> s[n] == c)
    ensures forall i :: n < i < |s| ==> s[i] != c
  {
    if s == "" || s[|s| - 1] == c then |s| - 1 else LastIndexOf(s[..|s| - 1], c)
  }

  /** The last occurrence of the separator divides the signature from what it signs. */
  function CutLast(s: string, c: char): Cut {
    var n := LastIndexOf(s, c);
    if n >= 0 then Cut(s[..n], s[n + 1..], true) else Cut(s, "", false)
  }

  lemma LastIndexUnique(s: string, c: char, n: nat)
    requires n < |s| && s[n] == c && forall i :: n < i < |s| ==> s[i] != c
    ensures LastIndexOf(s, c) == n
  {
  }

  lemma CutLastAround(before: string, c: char, after: string)
    requires c !in after
    ensures CutLast(before + [c] + after, c) == Cut(before, after, true)
  {
    var s := before + [c] + after;
    assert s[|before|] == c && s[..|before|] == before && s[|before| + 1..] == after;
    LastIndexUnique(s, c, |before|);
  }

  /** The store's key, and the keyed hash as an arbitrary function of the payload. */
  datatype Store = Store(key: seq<Byte>, mac: string -> seq<Byte>)

  function Sign(store: Store, payload: string): string {
    Encode(store.mac(payload))
  }

  /** Whole seconds, rounded down. */
  function Unix(nanos: int): int {
    nanos / SECOND
  }

  function Payload(container: seq<Byte>, expiry: int, nonce: seq<Byte>): string {
    FormatInt(expiry) + ['.'] + (Encode(container) + ['.'] + Encode(nonce))
  }

  function Issue(store: Store, container: seq<Byte>, ttl: int, now: int, nonce: seq<Byte>): Option<string> {
    if store.key == [] then None
    else
      var payload := Payload(container, Unix(now + ttl), nonce);
      Some(payload + ['.'] + Sign(store, payload))
  }

  function Valid(store: Store, token: string, container: seq<Byte>, now: int): bool {
    store.key != [] &&
    var signed := CutLast(token, '.');
    signed.found && signed.after == Sign(store, signed.before) && ValidPayload(signed.before, container, now)
  }

  function ValidPayload(payload: string, container: seq<Byte>, now: int): bool {
    var outer := CutAt(payload, '.');
    var inner := CutAt(outer.after, '.');
    && outer.found && inner.found
    && var expiry := ParseInt(outer.before);
       && expiry.Number? && now < expiry.value * SECOND
       && Decode(inner.before) == Some(container)
  }

  predicate Int64(n: int) {
    -0x8000_0000_0000_0000 <= n < 0x8000_0000_0000_0000
  }

  lemma PayloadReadsBack(container: seq<Byte>, expiry: int, nonce: seq<Byte>, other: seq<Byte>, now: int)
    requires Int64(expiry)
    ensures ValidPayload(Payload(container, expiry, nonce), other, now) <==> now < expiry * SECOND && other == container
  {
    ParseFormatted(expiry);
    DecodeEncode(container);
    CutAround(FormatInt(expiry), '.', Encode(container) + ['.'] + Encode(nonce));
    CutAround(Encode(container), '.', Encode(nonce));
  }

  /** A token issued at one time is accepted, at any time and for any container, exactly
      for the container it was issued to and before the whole second its life ends in;
      that life is the requested one less a part of a second. */
  lemma IssuedTokenAccepted(store: Store, container: seq<Byte>, ttl: int, issued: int, nonce: seq<Byte>, other: seq<Byte>, now: int)
    requires store.key != [] && Int64(Unix(issued + ttl))
    ensures var end := Unix(issued + ttl) * SECOND;
            && (Valid(store, Issue(store, container, ttl, issued, nonce).value, other, now) <==> other == container && now < end)
            && ttl - SECOND < end - issued <= ttl
  {
    var expiry := Unix(issued + ttl);
    var payload := Payload(container, expiry, nonce);
    DecodeEncode(store.mac(payload));
    CutLastAround(payload, '.', Sign(store, payload));
    PayloadReadsBack(container, expiry, nonce, other, now);
  }

  /** Whatever the token, issued or not: it is accepted for one container at most, and
      once refused for a container it stays refused. */
  lemma AnyTokenNamesOneContainer(store: Store, token: string, a: seq<Byte>, b: seq<Byte>, earlier: int, later: int)
    requires Valid(store, token, a, later) && earlier <= later
    ensures Valid(store, token, a, earlier) && (Valid(store, token, b, earlier) ==> a == b)
  {
  }

  /** The token is an expiry, a container and anything else, each after a separator, with the
      store's own signature over all of it at the end. */
  ghost predicate SignedBy(store: Store, token: string, expiry: string, container: string, rest: string) {
    var payload := expiry + ['.'] + (container + ['.'] + rest);
    '.' !in expiry && '.' !in container && token == payload + ['.'] + Encode(store.mac(payload))
  }

  ghost predicate LiveFor(expiry: string, claimed: string, container: seq<Byte>, now: int) {
    ParseInt(expiry).Number? && now < ParseInt(expiry).value * 1_000_000_000 && Decode(claimed) == Some(container)
  }

  /** Every token that is accepted carries the store's signature over its whole payload, names
      the container and has not expired; and every such token is accepted. */
  lemma AcceptedIffSigned(store: Store, token: string, container: seq<Byte>, now: int)
    ensures Valid(store, token, container, now) <==>
            store.key != [] && exists e, c, rest :: SignedBy(store, token, e, c, rest) && LiveFor(e, c, container, now)
  {
    if Valid(store, token, container, now) {
      var e, c, rest := PartsOf(store, token);
      assert SignedBy(store, token, e, c, rest);
    }
    if e, c, rest :| SignedBy(store, token, e, c, rest) && LiveFor(e, c, container, now) {
      SignedIsCut(store, token, e, c, rest);
    }
  }

  lemma CutLastTogether(s: string, c: char)
    ensures CutLast(s, c).found ==> s == CutLast(s, c).before + [c] + CutLast(s, c).after
  {
  }

  lemma PartsOf(store: Store, token: string) returns (e: string, c: string, rest: string)
    requires var signed := CutLast(token, '.'); signed.found && signed.after == Sign(store, signed.before) && CutAt(signed.before, '.').found && CutAt(CutAt(signed.before, '.').after, '.').found
    ensures SignedBy(store, token, e, c, rest)
    ensures var outer := CutAt(CutLast(token, '.').before, '.'); e == outer.before && c == CutAt(outer.after, '.').before
  {
    var signed := CutLast(token, '.');
    var outer := CutAt(signed.before, '.');
    var inner := CutAt(outer.after, '.');
    CutLastTogether(token, '.');
    e, c, rest := outer.before, inner.before, inner.after;
  }

  lemma SignedIsCut(store: Store, token: string, e: string, c: string, rest: string)
    requires SignedBy(store, token, e, c, rest)
    ensures var signed := CutLast(token, '.');
            && signed.found && signed.after == Sign(store, signed.before)
            && CutAt(signed.before, '.') == Cut(e, c + ['.'] + rest, true) && CutAt(c + ['.'] + rest, '.') == Cut(c, rest, true)
  {
    var payload := e + ['.'] + (c + ['.'] + rest);
    DecodeEncode(store.mac(payload));
    CutLastAround(payload, '.', Encode(store.mac(payload)));
    CutAround(e, '.', c + ['.'] + rest);
    CutAround(c, '.', rest);
  }

  /** With a lifetime of a second or more a new token works. */
  lemma NewTokenWorks(store: Store, container: seq<Byte>, ttl: int, issued: int, nonce: seq<Byte>)
    requires store.key != [] && ttl >= SECOND && Int64(Unix(issued + ttl))
    ensures Valid(store, Issue(store, container, ttl, issued, nonce).value, container, issued)
  {
    IssuedTokenAccepted(store, container, ttl, issued, nonce, container, issued);
  }

  /** Two requests are two tokens unless container, nonce and expiry second all agree. */
  lemma EqualTokensAgree(store: Store, a: seq<Byte>, ttl1: int, now1: int, nonce1: seq<Byte>, b: seq<Byte>, ttl2: int, now2: int, nonce2: seq<Byte>)
    requires store.key != [] && Int64(Unix(now1 + ttl1)) && Int64(Unix(now2 + ttl2))
    requires Issue(store, a, ttl1, now1, nonce1) == Issue(store, b, ttl2, now2, nonce2)
    ensures a == b && nonce1 == nonce2 && Unix(now1 + ttl1) == Unix(now2 + ttl2)
  {
    var x, y := Unix(now1 + ttl1), Unix(now2 + ttl2);
    var p, q := Payload(a, x, nonce1), Payload(b, y, nonce2);
    DecodeEncode(store.mac(p));
    DecodeEncode(store.mac(q));
    CutLastAround(p, '.', Sign(store, p));
    CutLastAround(q, '.', Sign(store, q));
    assert p == q;
    PayloadFields(a, x, nonce1);
    PayloadFields(b, y, nonce2);
  }

  lemma PayloadFields(container: seq<Byte>, expiry: int, nonce: seq<Byte>)
    requires Int64(expiry)
    ensures var outer := CutAt(Payload(container, expiry, nonce), '.');
            var inner := CutAt(outer.after, '.');
            ParseInt(outer.before) == Number(expiry) && Decode(inner.before) == Some(container) && Decode(inner.after) == Some(nonce)
  {
    ParseFormatted(expiry);
    DecodeEncode(container);
    DecodeEncode(nonce);
    CutAround(FormatInt(expiry), '.', Encode(container) + ['.'] + Encode(nonce));
    CutAround(Encode(container), '.', Encode(nonce));
  }
}
