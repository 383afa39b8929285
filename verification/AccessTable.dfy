/** The tables that decide who may reach a VM, and every write to them. */
module AccessTable {
  import opened HostNames
  import opened Basics

  const GUEST := "guest"

  datatype Container = Container(name: string, owner: string, appPort: int, appPublic: bool, running: bool, ip: string)
  datatype Link = Link(container: string, creator: string, expires: Option<int>)

  /** Users with their role, accounts by mail address and SSH keys by fingerprint. */
  datatype People = People(users: map<string, string>, emails: map<string, string>, keys: map<string, string>)

  /** People, VMs by id, grants of use, share links by token, and the verified custom
      domains by hostname. */
  datatype Db = Db(people: People, containers: map<string, Container>, access: set<(string, string)>,
                   links: map<string, Link>, aliases: map<string, string>)

  const EMPTY := Db(People(map[], map[], map[]), map[], {}, map[], map[])

  datatype Op =
    | CreateUser(user: string, email: string, role: string)
    | AddKey(user: string, key: string)
    | CreateContainer(id: string, row: Container)
    | Publish(id: string, port: int, public: bool)
    | Rename(id: string, name: string)
    | SetStatus(id: string, running: bool, ip: string)
    | DeleteContainer(id: string)
    | Grant(owner: string, id: string, email: string, key: string, newUser: string)
    | Revoke(owner: string, id: string, user: string)
    | DeleteUser(user: string)
    | CreateLink(token: string, link: Link)
    | DeleteLink(token: string)
    | SetAliases(aliases: map<string, string>)

  /** The unique index on owner and name, with one row left out. */
  predicate NameFree(db: Db, owner: string, name: string, but: string) {
    forall id | id in db.containers && id != but :: !(db.containers[id].owner == owner && db.containers[id].name == name)
  }

  predicate MayShare(db: Db, owner: string, id: string) {
    id in db.containers && db.containers[id].owner == owner && owner in db.people.users && db.people.users[owner] != GUEST
  }

  function Owned(db: Db, user: string): set<string> {
    set id | id in db.containers && db.containers[id].owner == user
  }

  /** The account an invitation reaches, and the people as it leaves them. */
  datatype Invitation = Turned | Invited(user: string, people: People)

  /** An unknown address becomes a guest with the given key; a known one must already
      hold that key, so nobody can add a key to somebody else's account. */
  function Invite(p: People, email: string, key: string, newUser: string): (r: Invitation)
    ensures r.Invited? && email in p.emails ==> r.user == p.emails[email] && r.people == p && key in p.keys && p.keys[key] == r.user
    ensures r.Invited? && email !in p.emails ==> r.user == newUser && newUser !in p.users && key !in p.keys
  {
    if email in p.emails then
      if key in p.keys && p.keys[key] == p.emails[email] then Invited(p.emails[email], p) else Turned
    else if newUser in p.users || key in p.keys then Turned
    else Invited(newUser, People(p.users[newUser := GUEST], p.emails[email := newUser], p.keys[key := newUser]))
  }

  function WithDefaultPort(c: Container): Container {
    if c.appPort == 0 then c.(appPort := DEFAULT_APP_PORT) else c
  }

  /** What a write leaves behind; a refused one changes nothing. */
  function Apply(db: Db, op: Op): Db {
    match op
    case CreateUser(user, email, role) =>
      var p := db.people;
      if user in p.users || email in p.emails then db
      else db.(people := p.(users := p.users[user := role], emails := p.emails[email := user]))
    case AddKey(user, key) =>
      var p := db.people;
      if user !in p.users || key in p.keys then db else db.(people := p.(keys := p.keys[key := user]))
    case CreateContainer(id, row) =>
      var c := WithDefaultPort(row);
      if !ValidAppPort(c.appPort) || id in db.containers || !NameFree(db, c.owner, c.name, id) then db
      else db.(containers := db.containers[id := c])
    case Publish(id, port, public) =>
      if !ValidAppPort(port) || id !in db.containers then db
      else db.(containers := db.containers[id := db.containers[id].(appPort := port, appPublic := public)])
    case Rename(id, name) =>
      if id !in db.containers || !NameFree(db, db.containers[id].owner, name, id) then db
      else db.(containers := db.containers[id := db.containers[id].(name := name)])
    case SetStatus(id, running, ip) =>
      if id !in db.containers then db
      else db.(containers := db.containers[id := db.containers[id].(running := running, ip := ip)])
    case DeleteContainer(id) =>
      db.(access := (set a | a in db.access && a.0 != id), containers := db.containers - {id})
    case Grant(owner, id, email, key, newUser) =>
      var i := Invite(db.people, email, key, newUser);
      if !MayShare(db, owner, id) || i.Turned? || i.user == owner then db
      else db.(people := i.people, access := db.access + {(id, i.user)})
    case Revoke(owner, id, user) => if !MayShare(db, owner, id) then db else db.(access := db.access - {(id, user)})
    case DeleteUser(user) =>
      var gone, p := Owned(db, user), db.people;
      Db(People(p.users - {user}, map e | e in p.emails && p.emails[e] != user :: p.emails[e], p.keys), db.containers - gone,
         (set a | a in db.access && a.1 != user && a.0 !in gone),
         (map t | t in db.links && db.links[t].creator != user && db.links[t].container !in gone :: db.links[t]),
         db.aliases)
    case CreateLink(token, link) => if token in db.links then db else db.(links := db.links[token := link])
    case DeleteLink(token) => db.(links := db.links - {token})
    case SetAliases(aliases) => db.(aliases := aliases)
  }

  ghost function Run(ops: seq<Op>): Db {
    if ops == [] then EMPTY else Apply(Run(ops[..|ops| - 1]), ops[|ops| - 1])
  }

  ghost predicate Reachable(db: Db) {
    exists ops :: Run(ops) == db
  }

  /** Every VM publishes a valid port, no two VMs of an owner share a name, and a grant
      belongs to a living VM and to a living user other than its owner. */
  ghost predicate Inv(db: Db) {
    && (forall id | id in db.containers :: ValidAppPort(db.containers[id].appPort))
    && (forall id | id in db.containers :: NameFree(db, db.containers[id].owner, db.containers[id].name, id))
    && (forall a | a in db.access :: a.0 in db.containers && db.containers[a.0].owner != a.1 && a.1 in db.people.users)
    && (forall e | e in db.people.emails :: db.people.emails[e] in db.people.users)
  }

  lemma ApplyKeepsInv(db: Db, op: Op)
    requires Inv(db)
    ensures Inv(Apply(db, op))
  {
    match op
    case CreateUser(_, _, _) => PeopleKeepInv(db, Apply(db, op));
    case AddKey(_, _) => PeopleKeepInv(db, Apply(db, op));
    case Grant(_, _, _, _, _) => GrantKeepsInv(db, op);
    case Revoke(_, _, _) => PeopleKeepInv(db, Apply(db, op));
    case DeleteContainer(_) => RemovalKeepsInv(db, Apply(db, op));
    case DeleteUser(_) => DeletionKeepsInv(db, op);
    case _ => RowKeepsInv(db, op);
  }

  lemma GrantKeepsInv(db: Db, op: Op)
    requires Inv(db) && op.Grant?
    ensures Inv(Apply(db, op))
  {
    PeopleKeepInv(db, Apply(db, op));
  }

  lemma DeletionKeepsInv(db: Db, op: Op)
    requires Inv(db) && op.DeleteUser?
    ensures Inv(Apply(db, op))
  {
    RemovalKeepsInv(db, Apply(db, op));
  }

  lemma RowKeepsInv(db: Db, op: Op)
    requires Inv(db) && (op.CreateContainer? || op.Rename? || op.Publish? || op.SetStatus? || op.CreateLink? || op.DeleteLink? || op.SetAliases?)
    ensures Inv(Apply(db, op))
  {
    if op.CreateContainer? || op.Rename? || op.Publish? || op.SetStatus? {
      if op.id in Apply(db, op).containers && Apply(db, op) != db {
        OneRowKeepsInv(db, op.id, Apply(db, op).containers[op.id]);
      }
    }
  }

  lemma OneRowKeepsInv(db: Db, id: string, c: Container)
    requires Inv(db) && ValidAppPort(c.appPort) && NameFree(db, c.owner, c.name, id)
    requires id in db.containers ==> c.owner == db.containers[id].owner
    ensures Inv(db.(containers := db.containers[id := c]))
  {
    var after := db.(containers := db.containers[id := c]);
    forall k | k in after.containers ensures NameFree(after, after.containers[k].owner, after.containers[k].name, k) {
      if k != id {
        assert NameFree(db, db.containers[k].owner, db.containers[k].name, k);
      }
    }
  }

  /** Rows may go together with every grant that names them. */
  lemma RemovalKeepsInv(db: Db, after: Db)
    requires Inv(db) && after.access <= db.access
    requires forall id :: id in after.containers ==> id in db.containers && after.containers[id] == db.containers[id]
    requires forall a | a in after.access :: a.0 in after.containers && a.1 in after.people.users
    requires forall e | e in after.people.emails :: after.people.emails[e] in after.people.users
    ensures Inv(after)
  {
  }

  /** New people and grants leave the VMs alone. */
  lemma PeopleKeepInv(db: Db, after: Db)
    requires Inv(db) && after.containers == db.containers && db.people.users.Keys <= after.people.users.Keys
    requires forall a | a in after.access :: a in db.access || (a.0 in db.containers && db.containers[a.0].owner != a.1 && a.1 in after.people.users)
    requires forall e | e in after.people.emails :: after.people.emails[e] in after.people.users
    ensures Inv(after)
  {
  }

  lemma {:induction false} RunsKeepInv(ops: seq<Op>)
    ensures Inv(Run(ops))
  {
    if ops != [] {
      RunsKeepInv(ops[..|ops| - 1]);
      ApplyKeepsInv(Run(ops[..|ops| - 1]), ops[|ops| - 1]);
    }
  }

  /** One write adds at most the grant it was asked for, and only for the VM's owner; a
      grant that survives it still belongs to the same owner's VM. */
  lemma GrantStep(db: Db, op: Op, id: string, user: string)
    requires Inv(db) && (id, user) in Apply(db, op).access
    ensures id in db.containers && id in Apply(db, op).containers && Apply(db, op).containers[id].owner == db.containers[id].owner
    ensures (id, user) !in db.access ==> GrantedBy(db, op, id, user)
  {
  }

  /** The write is an invitation by the VM's owner that reached this account. */
  ghost predicate GrantedBy(db: Db, op: Op, id: string, user: string) {
    && op.Grant? && op.id == id && MayShare(db, op.owner, id)
    && Invite(db.people, op.email, op.key, op.newUser).Invited? && Invite(db.people, op.email, op.key, op.newUser).user == user
  }

  /** No invitation changes whose account a registered key opens, or makes one open an
      account that was there before. */
  lemma InvitationsLeaveKeysAlone(db: Db, op: Op, key: string)
    requires op.Grant?
    ensures key in db.people.keys ==> key in Apply(db, op).people.keys && Apply(db, op).people.keys[key] == db.people.keys[key]
    ensures key !in db.people.keys && key in Apply(db, op).people.keys ==> Apply(db, op).people.keys[key] !in db.people.users
  {
  }

  /** The k-th write granted the use, and its caller is the VM's present owner. */
  ghost predicate GrantedAt(ops: seq<Op>, k: nat, id: string, user: string)
    requires k < |ops|
  {
    && GrantedBy(Run(ops[..k]), ops[k], id, user)
    && id in Run(ops).containers && Run(ops).containers[id].owner == ops[k].owner
  }

  /** Every grant in force goes back to a Grant call by the VM's present owner. */
  lemma {:induction false} GrantsComeFromTheOwner(ops: seq<Op>, id: string, user: string)
    requires (id, user) in Run(ops).access
    ensures exists k :: 0 <= k < |ops| && GrantedAt(ops, k, id, user)
  {
    var n := |ops| - 1;
    var front, last := ops[..n], ops[n];
    RunsKeepInv(front);
    GrantStep(Run(front), last, id, user);
    if (id, user) in Run(front).access {
      GrantsComeFromTheOwner(front, id, user);
      var k :| 0 <= k < n && GrantedAt(front, k, id, user);
      assert front[..k] == ops[..k] && front[k] == ops[k];
      assert GrantedAt(ops, k, id, user);
    } else {
      assert GrantedAt(ops, n, id, user);
    }
  }

  // ----- The tables before and after -----

  /** A VM is stored under a free id and a name its owner does not use, with the port asked
      for or 3000; otherwise nothing is. */
  lemma CreateMeans(db: Db, id: string, row: Container)
    ensures var port := if row.appPort == 0 then 3000 else row.appPort;
            var fits := 0 < port <= 65535 && port != 9000 && id !in db.containers
                        && forall k :: k in db.containers ==> db.containers[k].owner != row.owner || db.containers[k].name != row.name;
            Apply(db, CreateContainer(id, row)) == if fits then db.(containers := db.containers[id := row.(appPort := port)]) else db
  {
  }

  /** Publication stores the port and the bit as given, for a VM that is there and a port in
      range. */
  lemma PublishMeans(db: Db, id: string, port: int, public: bool)
    ensures Apply(db, Publish(id, port, public)) ==
              if id in db.containers && 0 < port <= 65535 && port != 9000
              then db.(containers := db.containers[id := db.containers[id].(appPort := port, appPublic := public)]) else db
  {
  }

  /** The owner, who is no guest, shares the VM. */
  ghost predicate OwnerShares(db: Db, owner: string, id: string) {
    id in db.containers && db.containers[id].owner == owner && owner in db.people.users && db.people.users[owner] != "guest"
  }

  /** An invitation grants use to the account of a known address, if it holds the key, and to
      a new guest with the key otherwise, if nobody holds it; never to the owner. */
  lemma GrantMeans(db: Db, owner: string, id: string, email: string, key: string, newUser: string)
    ensures var after, p := Apply(db, Grant(owner, id, email, key, newUser)), db.people;
            if !OwnerShares(db, owner, id) then after == db
            else if email in p.emails then
              after == if key in p.keys && p.keys[key] == p.emails[email] && p.emails[email] != owner
                       then db.(access := db.access + {(id, p.emails[email])}) else db
            else
              after == if newUser !in p.users && key !in p.keys && newUser != owner
                       then db.(people := People(p.users[newUser := "guest"], p.emails[email := newUser], p.keys[key := newUser]), access := db.access + {(id, newUser)})
                       else db
  {
  }

  /** Withdrawing takes exactly that grant away. */
  lemma RevokeMeans(db: Db, owner: string, id: string, user: string)
    ensures var after := Apply(db, Revoke(owner, id, user));
            && after == db.(access := after.access)
            && forall a :: a in after.access <==> a in db.access && !(OwnerShares(db, owner, id) && a == (id, user))
  {
  }

  /** Accounts, keys and links are added under what is free, and nothing else changes. */
  lemma AdditionsMean(db: Db, user: string, email: string, role: string, key: string, token: string, link: Link)
    ensures var p := db.people;
            Apply(db, CreateUser(user, email, role)) ==
              if user !in p.users && email !in p.emails then db.(people := People(p.users[user := role], p.emails[email := user], p.keys)) else db
    ensures var p := db.people;
            Apply(db, AddKey(user, key)) == if user in p.users && key !in p.keys then db.(people := People(p.users, p.emails, p.keys[key := user])) else db
    ensures Apply(db, CreateLink(token, link)) == if token !in db.links then db.(links := db.links[token := link]) else db
    ensures Apply(db, DeleteLink(token)) == db.(links := db.links - {token})
  {
  }

  /** A name changes if its owner has no other VM of that name; the runtime's status always. */
  lemma UpdatesMean(db: Db, id: string, name: string, running: bool, ip: string)
    ensures var free := forall k :: k in db.containers && k != id && id in db.containers && db.containers[k].owner == db.containers[id].owner ==> db.containers[k].name != name;
            Apply(db, Rename(id, name)) == if id in db.containers && free then db.(containers := db.containers[id := db.containers[id].(name := name)]) else db
    ensures Apply(db, SetStatus(id, running, ip)) ==
              if id in db.containers then db.(containers := db.containers[id := db.containers[id].(running := running, ip := ip)]) else db
  {
  }

  /** A link the account made, or one to a VM of its. */
  ghost predicate GoesWith(db: Db, link: Link, user: string) {
    link.creator == user || (link.container in db.containers && db.containers[link.container].owner == user)
  }

  /** A VM goes with its grants; an account goes with its VMs, its grants, the grants and links
      of its VMs and the links it made, and everything else stays as it was. */
  lemma DeletionMeans(db: Db, id: string, user: string)
    ensures var after := Apply(db, DeleteContainer(id));
            && after == Db(db.people, db.containers - {id}, after.access, db.links, db.aliases)
            && forall a :: a in after.access <==> a in db.access && a.0 != id
    ensures var after := Apply(db, DeleteUser(user));
            && after.aliases == db.aliases && after.people.users == db.people.users - {user} && after.people.keys == db.people.keys
            && (forall e :: e in after.people.emails <==> e in db.people.emails && db.people.emails[e] != user)
            && (forall e :: e in after.people.emails ==> after.people.emails[e] == db.people.emails[e])
            && (forall k :: k in after.containers <==> k in db.containers && db.containers[k].owner != user)
            && (forall k :: k in after.containers ==> after.containers[k] == db.containers[k])
            && (forall a :: a in after.access <==> a in db.access && a.1 != user && !(a.0 in db.containers && db.containers[a.0].owner == user))
            && (forall t :: t in after.links <==> t in db.links && !GoesWith(db, db.links[t], user))
            && (forall t :: t in after.links ==> after.links[t] == db.links[t])
  {
  }

  /** The writes as the code makes them, statement by statement. */
  class AccessStore {
    var people: People
    var containers: map<string, Container>
    var access: set<(string, string)>
    var links: map<string, Link>
    var aliases: map<string, string>

    function State(): Db
      reads this
    {
      Db(people, containers, access, links, aliases)
    }

    constructor ()
      ensures State() == EMPTY
    {
      people, containers, access, links, aliases := People(map[], map[], map[]), map[], {}, map[], map[];
    }

    method CreateContainer(id: string, row: Container) returns (ok: bool)
      modifies this
      ensures State() == Apply(old(State()), Op.CreateContainer(id, row))
      ensures ok <==> id !in old(containers) && ValidAppPort(WithDefaultPort(row).appPort) && NameFree(old(State()), row.owner, row.name, id)
    {
      var c := row;
      if c.appPort == 0 {
        c := c.(appPort := DEFAULT_APP_PORT);
      }
      if !ValidAppPort(c.appPort) {
        return false;
      }
      if id in containers || !NameFree(State(), c.owner, c.name, id) {
        return false;
      }
      containers := containers[id := c];
      return true;
    }

    method UpdateContainerPublish(id: string, port: int, public: bool) returns (ok: bool)
      modifies this
      ensures ok == ValidAppPort(port)
      ensures State() == Apply(old(State()), Publish(id, port, public))
    {
      if !ValidAppPort(port) {
        return false;
      }
      if id in containers {
        containers := containers[id := containers[id].(appPort := port, appPublic := public)];
      }
      return true;
    }

    method DeleteContainer(id: string)
      modifies this
      ensures State() == Apply(old(State()), Op.DeleteContainer(id))
    {
      access := set a | a in access && a.0 != id;
      containers := containers - {id};
    }

    method GrantContainerAccess(owner: string, id: string, email: string, key: string, newUser: string) returns (ok: bool)
      modifies this
      ensures State() == Apply(old(State()), Grant(owner, id, email, key, newUser))
      ensures ok <==> exists user :: GrantedBy(old(State()), Grant(owner, id, email, key, newUser), id, user) && user != owner
    {
      ghost var before := State();
      if !MayShare(State(), owner, id) {
        return false;
      }
      var begun := people;
      var user;
      if email !in people.emails {
        if newUser in people.users {
          return false;
        }
        user := newUser;
        people := people.(users := people.users[user := GUEST], emails := people.emails[email := user]);
        if key in people.keys {
          people := begun;
          return false;
        }
        people := people.(keys := people.keys[key := user]);
      } else {
        user := people.emails[email];
        if key !in people.keys || people.keys[key] != user {
          return false;
        }
      }
      if user == owner {
        people := begun;
        return false;
      }
      access := access + {(id, user)};
      assert GrantedBy(before, Grant(owner, id, email, key, newUser), id, user);
      return true;
    }

    method RevokeContainerAccess(owner: string, id: string, user: string) returns (ok: bool)
      modifies this
      ensures ok == MayShare(old(State()), owner, id)
      ensures State() == Apply(old(State()), Revoke(owner, id, user))
    {
      if !MayShare(State(), owner, id) {
        return false;
      }
      access := access - {(id, user)};
      return true;
    }

    method DeleteUser(user: string)
      modifies this
      ensures State() == Apply(old(State()), Op.DeleteUser(user))
    {
      access := set a | a in access && a.1 != user && a.0 !in Owned(State(), user);
      links := map t | t in links && links[t].creator != user && links[t].container !in Owned(State(), user) :: links[t];
      containers := containers - Owned(State(), user);
      people := people.(users := people.users - {user}, emails := map e | e in people.emails && people.emails[e] != user :: people.emails[e]);
    }
  }
}
