/** Handing all sessions to the next daemon instance: which ones travel, and
    how their pipes find their way back by name. */
module Handover {
  import opened Proto
  import opened SessionTask

  // ------------------------------------------------------------------------
  // Names

  /** The name a pipe gets in the fd store. */
  function FdName(token: string, role: string): string {
    token + "." + role
  }

  /** Splits at the last dot. */
  function RsplitOnce(name: string): Option<(string, string)> {
    if name == [] then None
    else if name[|name| - 1] == '.' then Some((name[..|name| - 1], ""))
    else match RsplitOnce(name[..|name| - 1])
      case None => None
      case Some((token, role)) => Some((token, role + [name[|name| - 1]]))
  }

  /** Whatever dots the token contains, splitting undoes the naming. */
  lemma {:induction false} SplitUndoesName(token: string, role: string)
    requires '.' !in role
    ensures RsplitOnce(FdName(token, role)) == Some((token, role))
    decreases |role|
  {
    var name := FdName(token, role);
    if role == [] {
      assert name[..|name| - 1] == token;
    } else {
      var init := role[..|role| - 1];
      assert name[..|name| - 1] == FdName(token, init);
      SplitUndoesName(token, init);
      assert init + [role[|role| - 1]] == role;
    }
  }

  lemma {:induction false} NameUndoesSplit(name: string)
    ensures match RsplitOnce(name)
            case None => '.' !in name
            case Some((token, role)) => name == FdName(token, role) && '.' !in role
  {
    if name != [] && name[|name| - 1] != '.' {
      NameUndoesSplit(name[..|name| - 1]);
      assert name == name[..|name| - 1] + [name[|name| - 1]];
    } else if name != [] {
      assert name == name[..|name| - 1] + ".";
    }
  }

  // ------------------------------------------------------------------------
  // Regrouping

  type Pipes = map<string, Fd>

  /** Pipes by session, then by role. */
  type Groups = map<string, Pipes>

  function PipesOf(groups: Groups, token: string): Pipes {
    if token in groups then groups[token] else map[]
  }

  function Insert(groups: Groups, name: string, fd: Fd): Groups {
    match RsplitOnce(name)
    case None => groups
    case Some((token, role)) => groups[token := PipesOf(groups, token)[role := fd]]
  }

  function Group(fds: seq<(string, Fd)>): Groups {
    if fds == [] then map[] else Insert(Group(fds[..|fds| - 1]), fds[|fds| - 1].0, fds[|fds| - 1].1)
  }

  /** The pipe that came last under a name: an earlier one is replaced. */
  function LastNamed(fds: seq<(string, Fd)>, name: string): Option<Fd> {
    if fds == [] then None
    else if fds[|fds| - 1].0 == name then Some(fds[|fds| - 1].1)
    else LastNamed(fds[..|fds| - 1], name)
  }

  function Lookup(pipes: Pipes, role: string): Option<Fd> {
    if role in pipes then Some(pipes[role]) else None
  }

  /** A session finds under a role the pipe that the store returned last under
      that session's token and role, and none when there was none. */
  lemma {:induction false} GroupFinds(fds: seq<(string, Fd)>, token: string, role: string)
    requires '.' !in role
    ensures Lookup(PipesOf(Group(fds), token), role) == LastNamed(fds, FdName(token, role))
  {
    SplitUndoesName(token, role);
    if fds != [] {
      var init, last := fds[..|fds| - 1], fds[|fds| - 1];
      GroupFinds(init, token, role);
      NameUndoesSplit(last.0);
    }
  }

  lemma {:induction false} GroupedRolesAreDotless(fds: seq<(string, Fd)>, token: string, role: string)
    requires role in PipesOf(Group(fds), token)
    ensures '.' !in role
  {
    if fds != [] {
      var init, last := fds[..|fds| - 1], fds[|fds| - 1];
      NameUndoesSplit(last.0);
      if role in PipesOf(Group(init), token) {
        GroupedRolesAreDotless(init, token, role);
      }
    }
  }

  /** Without repeated names, last means only. */
  lemma {:induction false} LastIsOnly(fds: seq<(string, Fd)>, name: string, fd: Fd)
    requires UniqueNames(fds)
    ensures LastNamed(fds, name) == Some(fd) <==> (name, fd) in fds
  {
    if fds != [] {
      var init, last := fds[..|fds| - 1], fds[|fds| - 1];
      assert fds == init + [last];
      LastIsOnly(init, name, fd);
    }
  }

  method Regroup(fds: seq<(string, Fd)>) returns (groups: Groups)
    ensures groups == Group(fds)
  {
    groups := map[];
    for i := 0 to |fds|
      invariant groups == Group(fds[..i])
    {
      assert fds[..i + 1][..i] == fds[..i];
      var (name, fd) := fds[i];
      match RsplitOnce(name) {
        case None =>
        case Some((token, role)) =>
          var pipes := if token in groups then groups[token] else map[];
          groups := groups[token := pipes[role := fd]];
      }
    }
    assert fds[..|fds|] == fds;
  }

  // ------------------------------------------------------------------------
  // The whole handover

  /** A registered session at shutdown. A task that has ended cannot be asked;
      `reply` is what another one answers, nothing when it takes too long. */
  datatype Entry = Entry(token: string, resumable: bool, ended: bool, reply: Option<(Record, seq<(string, Fd)>)>)

  predicate Travels(e: Entry) {
    e.resumable && !e.ended && e.reply.Some?
  }

  function NamedFds(token: string, fds: seq<(string, Fd)>): seq<(string, Fd)> {
    seq(|fds|, i requires 0 <= i < |fds| => (FdName(token, fds[i].0), fds[i].1))
  }

  /** All pipes put into the store, in order. */
  function StoredFds(entries: seq<Entry>): seq<(string, Fd)> {
    if entries == [] then []
    else
      var e := entries[|entries| - 1];
      StoredFds(entries[..|entries| - 1]) + (if Travels(e) then NamedFds(e.token, e.reply.value.1) else [])
  }

  predicate UniqueTokens(entries: seq<Entry>) {
    forall i, j :: 0 <= i < j < |entries| ==> entries[i].token != entries[j].token
  }

  /** Records and pipes come from exactly the resumable sessions whose task
      answered, and exactly those leave the registry; a session whose task has
      ended stays behind, even with its Exit not yet acknowledged. */
  method HandOverAll(entries: seq<Entry>)
    returns (fds: seq<(string, Fd)>, records: map<string, Record>, kept: set<string>)
    requires UniqueTokens(entries)
    ensures fds == StoredFds(entries)
    ensures forall e :: e in entries ==> (e.token in records <==> e.resumable && !e.ended && e.reply.Some?)
    ensures forall e :: e in entries && Travels(e) ==> records[e.token] == e.reply.value.0
    ensures forall t :: t in records ==> exists e :: e in entries && e.token == t
    ensures kept == set e | e in entries && !Travels(e) :: e.token
  {
    fds, records := [], map[];
    kept := set e | e in entries :: e.token;
    for i := 0 to |entries|
      invariant fds == StoredFds(entries[..i])
      invariant forall t :: t in records ==> exists j :: 0 <= j < i && entries[j].token == t
      invariant forall j :: 0 <= j < i ==> (Travels(entries[j]) <==> entries[j].token in records)
      invariant forall j :: 0 <= j < i && Travels(entries[j]) ==> records[entries[j].token] == entries[j].reply.value.0
      invariant kept == (set e | e in entries :: e.token) - records.Keys
    {
      assert entries[..i + 1][..i] == entries[..i];
      var e := entries[i];
      if !e.resumable { continue; }
      if e.ended { continue; }
      if e.reply.None? { continue; }
      fds := fds + NamedFds(e.token, e.reply.value.1);
      kept := kept - {e.token};
      records := records[e.token := e.reply.value.0];
    }
    assert entries[..|entries|] == entries;
  }

  /** A pipe is in the store exactly when a travelling session gave it. */
  lemma {:induction false} StoredMeans(entries: seq<Entry>, x: (string, Fd))
    ensures x in StoredFds(entries)
       <==> exists e :: e in entries && Travels(e) && x in NamedFds(e.token, e.reply.value.1)
  {
    if entries != [] {
      var init, last := entries[..|entries| - 1], entries[|entries| - 1];
      StoredMeans(init, x);
      assert entries == init + [last];
      if x in StoredFds(entries) && Travels(last) && x in NamedFds(last.token, last.reply.value.1) {
        assert last in entries;
      }
    }
  }

  // ------------------------------------------------------------------------
  // Through the store and back

  /** A task gives each open pipe back once, under its role. */
  predicate GaveBack(e: Entry) {
    Travels(e) ==> GivesBack(e.reply.value.0, e.reply.value.1)
  }

  /** The four roles carry no dot. */
  lemma RolesAreDotless()
    ensures '.' !in STDIN && '.' !in STDOUT && '.' !in STDERR && '.' !in EXIT
  {
  }

  lemma DotlessRole(e: Entry, x: (string, Fd))
    requires GaveBack(e) && Travels(e) && x in e.reply.value.1
    ensures '.' !in x.0
  {
    RolesAreDotless();
    assert x.0 in Roles(e.reply.value.1);
  }

  /** Where a stored name comes from. */
  lemma StoredComesFrom(entries: seq<Entry>, x: (string, Fd)) returns (e: Entry, y: (string, Fd))
    requires x in StoredFds(entries)
    ensures e in entries && Travels(e) && y in e.reply.value.1 && x == (FdName(e.token, y.0), y.1)
  {
    StoredMeans(entries, x);
    e :| e in entries && Travels(e) && x in NamedFds(e.token, e.reply.value.1);
    var given := e.reply.value.1;
    var i :| 0 <= i < |given| && NamedFds(e.token, given)[i] == x;
    y := given[i];
  }

  lemma NamedAreUnique(e: Entry)
    requires GaveBack(e) && Travels(e)
    ensures UniqueNames(NamedFds(e.token, e.reply.value.1))
  {
    var given := e.reply.value.1;
    var named := NamedFds(e.token, given);
    forall i, j | 0 <= i < j < |named| ensures named[i].0 != named[j].0 {
      assert given[i] in given && given[j] in given;
      DotlessRole(e, given[i]);
      DotlessRole(e, given[j]);
      SplitUndoesName(e.token, given[i].0);
      SplitUndoesName(e.token, given[j].0);
    }
  }

  lemma UniqueAppend(a: seq<(string, Fd)>, b: seq<(string, Fd)>)
    requires UniqueNames(a) && UniqueNames(b)
    requires forall x, y :: x in a && y in b ==> x.0 != y.0
    ensures UniqueNames(a + b)
  {
    forall i, j | 0 <= i < j < |a + b| ensures (a + b)[i].0 != (a + b)[j].0 {
      if i < |a| <= j {
        assert a[i] in a && b[j - |a|] in b;
      }
    }
  }

  /** Tokens tell sessions apart and roles their pipes, so no name in the store
      occurs twice. */
  lemma {:induction false} StoredAreUnique(entries: seq<Entry>)
    requires UniqueTokens(entries) && forall e :: e in entries ==> GaveBack(e)
    ensures UniqueNames(StoredFds(entries))
  {
    if entries != [] {
      var init, last := entries[..|entries| - 1], entries[|entries| - 1];
      assert entries == init + [last];
      StoredAreUnique(init);
      if Travels(last) {
        var theirs, ours := StoredFds(init), NamedFds(last.token, last.reply.value.1);
        NamedAreUnique(last);
        forall x, y | x in theirs && y in ours ensures x.0 != y.0 {
          OthersNamesDiffer(init, last, x, y);
        }
        UniqueAppend(theirs, ours);
      }
    }
  }

  lemma OthersNamesDiffer(init: seq<Entry>, last: Entry, x: (string, Fd), y: (string, Fd))
    requires UniqueTokens(init + [last]) && GaveBack(last) && Travels(last)
    requires forall e :: e in init ==> GaveBack(e)
    requires x in StoredFds(init) && y in NamedFds(last.token, last.reply.value.1)
    ensures x.0 != y.0
  {
    var e, z := StoredComesFrom(init, x);
    var k :| 0 <= k < |init| && init[k] == e;
    assert (init + [last])[k] == e && (init + [last])[|init|] == last;
    var given := last.reply.value.1;
    var i :| 0 <= i < |given| && NamedFds(last.token, given)[i] == y;
    DotlessRole(e, z);
    assert given[i] in given;
    DotlessRole(last, given[i]);
    SplitUndoesName(e.token, z.0);
    SplitUndoesName(last.token, given[i].0);
  }

  lemma CountsTwice<T>(s: seq<T>, i: nat, j: nat)
    requires i < j < |s| && s[i] == s[j]
    ensures multiset(s)[s[i]] >= 2
  {
    assert s == s[..j] + s[j..];
    assert s[i] in s[..j] && s[j] in s[j..];
    assert s[..j][i] == s[i] && s[j..][0] == s[j];
  }

  lemma {:induction false} UniqueCountsOnce(fds: seq<(string, Fd)>, x: (string, Fd))
    requires UniqueNames(fds)
    ensures multiset(fds)[x] <= 1
  {
    if fds != [] {
      var init, last := fds[..|fds| - 1], fds[|fds| - 1];
      assert fds == init + [last];
      UniqueCountsOnce(init, x);
    }
  }

  /** The order in which the store returns the pipes does not matter. */
  lemma ShuffledAreUnique(a: seq<(string, Fd)>, b: seq<(string, Fd)>)
    requires UniqueNames(a) && multiset(a) == multiset(b)
    ensures UniqueNames(b)
  {
    forall i, j | 0 <= i < j < |b| ensures b[i].0 != b[j].0 {
      if b[i] == b[j] {
        CountsTwice(b, i, j);
        UniqueCountsOnce(a, b[i]);
      } else {
        assert b[i] in multiset(b) && b[j] in multiset(b);
        assert b[i] in a && b[j] in a;
        var k :| 0 <= k < |a| && a[k] == b[i];
        var l :| 0 <= l < |a| && a[l] == b[j];
      }
    }
  }

  lemma StoredIsGiven(entries: seq<Entry>, e: Entry, role: string, fd: Fd)
    requires UniqueTokens(entries) && (forall x :: x in entries ==> GaveBack(x))
    requires e in entries && Travels(e) && '.' !in role
    ensures (FdName(e.token, role), fd) in StoredFds(entries) <==> (role, fd) in e.reply.value.1
  {
    var x := (FdName(e.token, role), fd);
    var given := e.reply.value.1;
    if (role, fd) in given {
      var i :| 0 <= i < |given| && given[i] == (role, fd);
      assert NamedFds(e.token, given)[i] == x;
      StoredMeans(entries, x);
    }
    if x in StoredFds(entries) {
      var o, y := StoredComesFrom(entries, x);
      DotlessRole(o, y);
      SplitUndoesName(e.token, role);
      SplitUndoesName(o.token, y.0);
    }
  }

  /** In whatever order the store returns the pipes, regrouping gives each
      session exactly the pipes it gave away: for any token, dots included. */
  lemma EachSessionGetsItsPipes(entries: seq<Entry>, returned: seq<(string, Fd)>, e: Entry, role: string, fd: Fd)
    requires UniqueTokens(entries) && forall x :: x in entries ==> GaveBack(x)
    requires e in entries && Travels(e)
    requires multiset(returned) == multiset(StoredFds(entries))
    ensures Lookup(PipesOf(Group(returned), e.token), role) == Some(fd) <==> (role, fd) in e.reply.value.1
  {
    if '.' in role {
      if role in PipesOf(Group(returned), e.token) {
        GroupedRolesAreDotless(returned, e.token, role);
      }
      if (role, fd) in e.reply.value.1 {
        DotlessRole(e, (role, fd));
      }
    } else {
      var x := (FdName(e.token, role), fd);
      StoredAreUnique(entries);
      ShuffledAreUnique(StoredFds(entries), returned);
      GroupFinds(returned, e.token, role);
      LastIsOnly(returned, x.0, fd);
      assert x in returned <==> x in multiset(returned);
      assert x in StoredFds(entries) <==> x in multiset(StoredFds(entries));
      StoredIsGiven(entries, e, role, fd);
    }
  }

  /** The record as the next daemon acts on it: the open pipes are those that
      were found, not those that were written down. */
  function AsFound(r: Record, pipes: Pipes): Record {
    r.(roles := pipes.Keys)
  }

  lemma FoundIsRecorded(entries: seq<Entry>, returned: seq<(string, Fd)>, e: Entry)
    requires UniqueTokens(entries) && forall x :: x in entries ==> GaveBack(x)
    requires e in entries && Travels(e)
    requires multiset(returned) == multiset(StoredFds(entries))
    ensures AsFound(e.reply.value.0, PipesOf(Group(returned), e.token)) == e.reply.value.0
  {
    var (record, given) := e.reply.value;
    var pipes := PipesOf(Group(returned), e.token);
    forall role ensures role in pipes <==> role in record.roles {
      if role in pipes {
        EachSessionGetsItsPipes(entries, returned, e, role, pipes[role]);
        assert (role, pipes[role]) in given;
      }
      if role in record.roles {
        var x :| x in given && x.0 == role;
        EachSessionGetsItsPipes(entries, returned, e, role, x.1);
      }
    }
    assert pipes.Keys == record.roles;
  }

  /** The whole way: a session that was stopped, written down, sent through
      the store together with any number of others, regrouped and restored
      goes on as if it had never been stopped. */
  lemma SessionComesBack(entries: seq<Entry>, returned: seq<(string, Fd)>, e: Entry,
                         s: Session, before: seq<Moment>, late: seq<nat>, after: seq<Moment>)
    requires UniqueTokens(entries) && forall x :: x in entries ==> GaveBack(x)
    requires e in entries && Travels(e)
    requires multiset(returned) == multiset(StoredFds(entries))
    requires Settled(s) && Live(s, before).running
    requires e.reply.value.0 == HandOver(Live(s, before).task, Live(s, before).log)
    ensures var record := AsFound(e.reply.value.0, PipesOf(Group(returned), e.token));
            SameSession(Live(s, before + Trims(late) + after),
                        Live(RestoreSession(record), Reclose(Live(s, before).task) + after))
  {
    FoundIsRecorded(entries, returned, e);
    HandoverIsTransparent(s, before, late, after);
  }
}
