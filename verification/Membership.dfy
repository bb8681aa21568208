/** Who votes: bootstrap, staged joins, promotions and removals, with witnesses
    kept fewer than half of the voters. */
module Membership {
  import opened Dns

  /** An identifier, by whether it begins with the prefix every witness's begins
      with and nothing else's. */
  datatype MemberId = Plain(name: string) | Prefixed(rest: string)

  datatype Suffrage = Voter | Nonvoter

  datatype Server = Server(id: MemberId, suffrage: Suffrage)

  type Config = seq<Server>

  datatype Role = VoterRole | NonvoterRole | WitnessRole

  datatype Request = Request(id: MemberId, role: Role, holdsLog: bool)

  predicate IsWitness(id: MemberId)
  {
    id.Prefixed?
  }

  // ------------------------------------------------------------ configurations

  function Ids(c: Config): set<MemberId>
  {
    set i | 0 <= i < |c| :: c[i].id
  }

  function Voters(c: Config): set<MemberId>
  {
    set i | 0 <= i < |c| && c[i].suffrage == Voter :: c[i].id
  }

  function Witnesses(ids: set<MemberId>): set<MemberId>
  {
    set id | id in ids && IsWitness(id)
  }

  ghost predicate Distinct(c: Config)
  {
    forall i, j :: 0 <= i < j < |c| ==> c[i].id != c[j].id
  }

  /** Witnesses are none, or fewer than half. */
  predicate Few(voters: set<MemberId>)
  {
    Witnesses(voters) == {} || 2 * |Witnesses(voters)| < |voters|
  }

  ghost predicate Sound(c: Config)
  {
    Distinct(c) && Voters(c) != {} && Few(Voters(c))
  }

  // --------------------------------------------------------------- the changes

  function Find(c: Config, id: MemberId): Option<nat>
  {
    if c == [] then None
    else if c[0].id == id then Some(0)
    else match Find(c[1..], id) { case None => None case Some(i) => Some(i + 1) }
  }

  lemma {:induction false} FindIs(c: Config, id: MemberId)
    ensures match Find(c, id)
            case None => id !in Ids(c)
            case Some(i) => i < |c| && c[i].id == id
  {
    if c != [] {
      FindIs(c[1..], id);
      if Find(c, id).None? {
        forall i | 0 <= i < |c|
          ensures c[i].id != id
        {
          if i > 0 { assert c[1..][i - 1].id in Ids(c[1..]); }
        }
      }
    }
  }

  /** A member already there keeps its vote; only its address would move. */
  function WithNonvoter(c: Config, id: MemberId): Config
  {
    if Find(c, id).Some? then c else c + [Server(id, Nonvoter)]
  }

  function WithVoter(c: Config, id: MemberId): (r: Config)
  {
    FindIs(c, id);
    match Find(c, id)
    case None => c + [Server(id, Voter)]
    case Some(i) => c[i := Server(id, Voter)]
  }

  function Without(c: Config, id: MemberId): Config
  {
    FindIs(c, id);
    match Find(c, id)
    case None => c
    case Some(i) => c[..i] + c[i + 1..]
  }

  lemma NonvoterKeepsVoters(c: Config, id: MemberId)
    requires Distinct(c)
    ensures Distinct(WithNonvoter(c, id)) && Voters(WithNonvoter(c, id)) == Voters(c)
  {
    FindIs(c, id);
    var d := WithNonvoter(c, id);
    assert forall i :: 0 <= i < |c| ==> d[i] == c[i];
    assert forall i :: 0 <= i < |c| ==> c[i].id in Ids(c);
    forall v | v in Voters(d)
      ensures v in Voters(c)
    {
      var i :| 0 <= i < |d| && d[i].suffrage == Voter && d[i].id == v;
      assert i < |c|;
    }
    forall v | v in Voters(c)
      ensures v in Voters(d)
    {
      var i :| 0 <= i < |c| && c[i].suffrage == Voter && c[i].id == v;
      assert d[i] == c[i];
    }
  }

  lemma VoterJoins(c: Config, id: MemberId)
    requires Distinct(c)
    ensures Distinct(WithVoter(c, id)) && Voters(WithVoter(c, id)) == Voters(c) + {id}
  {
    FindIs(c, id);
    var d := WithVoter(c, id);
    assert forall i :: 0 <= i < |c| ==> c[i].id in Ids(c) && d[i].id == c[i].id;
    forall v | v in Voters(d)
      ensures v in Voters(c) + {id}
    {
      var i :| 0 <= i < |d| && d[i].suffrage == Voter && d[i].id == v;
      if i < |c| && v != id { assert c[i] == d[i]; }
    }
    forall v | v in Voters(c) + {id}
      ensures v in Voters(d)
    {
      if v == id {
        var k := if Find(c, id).Some? then Find(c, id).value else |c|;
        assert d[k] == Server(id, Voter);
      } else {
        var i :| 0 <= i < |c| && c[i].suffrage == Voter && c[i].id == v;
        assert d[i] == c[i];
      }
    }
  }

  lemma MemberLeaves(c: Config, id: MemberId)
    requires Distinct(c)
    ensures Distinct(Without(c, id)) && Voters(Without(c, id)) == Voters(c) - {id}
  {
    FindIs(c, id);
    var d := Without(c, id);
    assert forall i :: 0 <= i < |c| ==> c[i].id in Ids(c);
    if Find(c, id).Some? {
      var k := Find(c, id).value;
      assert forall i :: 0 <= i < k ==> d[i] == c[i];
      assert forall i :: k <= i < |d| ==> d[i] == c[i + 1];
      forall v | v in Voters(c) - {id}
        ensures v in Voters(d)
      {
        var i :| 0 <= i < |c| && c[i].suffrage == Voter && c[i].id == v;
        assert if i < k then d[i] == c[i] else d[i - 1] == c[i];
      }
      forall v | v in Voters(d)
        ensures v in Voters(c) - {id}
      {
        var i :| 0 <= i < |d| && d[i].suffrage == Voter && d[i].id == v;
        assert if i < k then d[i] == c[i] else d[i] == c[i + 1];
      }
    } else {
      forall v | v in Voters(c)
        ensures v != id
      {
        var i :| 0 <= i < |c| && c[i].suffrage == Voter && c[i].id == v;
      }
    }
  }

  // ---------------------------------------------------------------- the checks

  lemma VotersMore(c: Config, i: nat)
    requires i < |c| && Distinct(c)
    ensures Voters(c[..i + 1]) == Voters(c[..i]) + if c[i].suffrage == Voter then {c[i].id} else {}
    ensures c[i].id !in Voters(c[..i])
  {
    var was, now := c[..i], c[..i + 1];
    var next := Voters(was) + if c[i].suffrage == Voter then {c[i].id} else {};
    assert now == was + [c[i]];
    forall v | v in next
      ensures v in Voters(now)
    {
      if v in Voters(was) {
        var j :| 0 <= j < |was| && was[j].suffrage == Voter && was[j].id == v;
        assert now[j] == was[j];
      } else {
        assert now[i] == c[i];
      }
    }
    forall v | v in Voters(now)
      ensures v in next
    {
      var j :| 0 <= j < |now| && now[j].suffrage == Voter && now[j].id == v;
      if j < i { assert was[j] == now[j]; }
    }
  }

  lemma IdsMore(c: Config, i: nat)
    requires i < |c|
    ensures Ids(c[..i + 1]) == Ids(c[..i]) + {c[i].id}
  {
    assert c[..i + 1] == c[..i] + [c[i]];
    assert forall j :: 0 <= j < i ==> c[..i + 1][j] == c[..i][j];
    assert c[..i + 1][i] == c[i];
  }

  /** Counts the voters the cluster would have once this member votes, or once it
      is gone. */
  method KeepsWitnessesFew(c: Config, id: MemberId, voting: bool) returns (ok: bool)
    requires Distinct(c)
    ensures ok <==> Few(Voters(c) - {id} + if voting then {id} else {})
  {
    var voters, witnesses := 0, 0;
    for i := 0 to |c|
      invariant Counted(Others(c, i, id), voters, witnesses)
    {
      OthersMore(c, i, id);
      if c[i].id != id && c[i].suffrage == Voter {
        CountedMore(Others(c, i, id), c[i].id, voters, witnesses);
        voters := voters + 1;
        if IsWitness(c[i].id) { witnesses := witnesses + 1; }
      }
    }
    ghost var ids := Others(c, |c|, id);
    AllOthers(c, id, voting);
    if voting {
      CountedMore(ids, id, voters, witnesses);
      voters := voters + 1;
      if IsWitness(id) { witnesses := witnesses + 1; }
      ids := ids + {id};
    }
    CountedFew(ids, voters, witnesses);
    ok := !(witnesses > 0 && 2 * witnesses >= voters);
  }

  /** The voters among the first i, this member apart. */
  ghost function Others(c: Config, i: nat, id: MemberId): set<MemberId>
    requires i <= |c|
  {
    Voters(c[..i]) - {id}
  }

  lemma AllOthers(c: Config, id: MemberId, voting: bool)
    ensures Voters(c) - {id} + (if voting then {id} else {}) == Others(c, |c|, id) + if voting then {id} else {}
    ensures Others(c, |c|, id) + {} == Others(c, |c|, id)
  {
    assert c[..|c|] == c;
  }

  lemma OthersMore(c: Config, i: nat, id: MemberId)
    requires i < |c| && Distinct(c)
    ensures Others(c, i + 1, id) == Others(c, i, id) + if c[i].id != id && c[i].suffrage == Voter then {c[i].id} else {}
    ensures c[i].id !in Others(c, i, id)
  {
    VotersMore(c, i);
  }

  ghost predicate Counted(ids: set<MemberId>, voters: int, witnesses: int)
  {
    voters == |ids| && witnesses == |Witnesses(ids)|
  }

  lemma CountedMore(ids: set<MemberId>, id: MemberId, voters: int, witnesses: int)
    requires Counted(ids, voters, witnesses) && id !in ids
    ensures Counted(ids + {id}, voters + 1, if IsWitness(id) then witnesses + 1 else witnesses)
  {
    assert Witnesses(ids + {id}) == Witnesses(ids) + if IsWitness(id) then {id} else {};
  }

  lemma CountedFew(ids: set<MemberId>, voters: int, witnesses: int)
    requires Counted(ids, voters, witnesses)
    ensures Few(ids) <==> !(witnesses > 0 && 2 * witnesses >= voters)
  {
  }

  datatype Refused = NoMember | LastVoter | WitnessMajority | BadRequest

  datatype Outcome = Changed(config: Config) | Refused(why: Refused)

  /** A witness joins as one, under an identifier that says so, and nothing else
      does. */
  predicate ValidRequest(r: Request)
  {
    r.id != Plain("") && (IsWitness(r.id) <==> r.role == WitnessRole)
  }

  /** A voter is staged first and given its vote once it holds the log; a witness
      that could not be given one is not staged either. */
  function Admitted(c: Config, r: Request): Outcome
  {
    if !ValidRequest(r) then Refused(BadRequest)
    else if r.role == WitnessRole && !Few(Voters(c) - {r.id} + {r.id}) then Refused(WitnessMajority)
    else if r.role == NonvoterRole || !r.holdsLog then Changed(WithNonvoter(c, r.id))
    else Changed(WithVoter(c, r.id))
  }

  function Removed(c: Config, id: MemberId): Outcome
  {
    if id !in Ids(c) then Refused(NoMember)
    else if Voters(c) == {id} then Refused(LastVoter)
    else if !Few(Voters(c) - {id}) then Refused(WitnessMajority)
    else Changed(Without(c, id))
  }

  method Admit(c: Config, r: Request) returns (o: Outcome)
    requires Distinct(c)
    ensures o == Admitted(c, r)
  {
    if r.id == Plain("") || IsWitness(r.id) != (r.role == WitnessRole) { return Refused(BadRequest); }
    if r.role == WitnessRole {
      var few := KeepsWitnessesFew(c, r.id, true);
      if !few { return Refused(WitnessMajority); }
    }
    if r.role == NonvoterRole { return Changed(WithNonvoter(c, r.id)); }
    if !r.holdsLog { return Changed(WithNonvoter(c, r.id)); }
    return Changed(WithVoter(c, r.id));
  }

  method Remove(c: Config, id: MemberId) returns (o: Outcome)
    requires Distinct(c)
    ensures o == Removed(c, id)
  {
    var found, voter, voters := false, false, 0;
    for i := 0 to |c|
      invariant found <==> id in Ids(c[..i])
      invariant voters == |Voters(c[..i])| && (voter <==> id in Voters(c[..i]))
    {
      VotersMore(c, i);
      IdsMore(c, i);
      if c[i].suffrage == Voter { voters := voters + 1; }
      if c[i].id == id { found, voter := true, c[i].suffrage == Voter; }
    }
    assert c[..|c|] == c;
    if !found { return Refused(NoMember); }
    OnlyOne(Voters(c), id);
    if voter && voters == 1 { return Refused(LastVoter); }
    var few := KeepsWitnessesFew(c, id, false);
    assert Voters(c) - {id} + {} == Voters(c) - {id};
    if !few { return Refused(WitnessMajority); }
    return Changed(Without(c, id));
  }

  lemma OnlyOne(s: set<MemberId>, id: MemberId)
    ensures s == {id} <==> id in s && |s| == 1
  {
    if id in s && |s| == 1 {
      assert |s - {id}| == 0;
      assert s == (s - {id}) + {id};
    }
  }

  // ------------------------------------------------------------------- all runs

  datatype Change = Join(r: Request) | Leave(id: MemberId)

  /** The check of a change. */
  predicate Passes(c: Config, ch: Change)
  {
    match ch case Join(r) => Admitted(c, r).Changed? case Leave(id) => Removed(c, id).Changed?
  }

  /** The change itself, whatever its check would say by now. */
  function Made(c: Config, ch: Change): Config
  {
    match ch
    case Join(r) => if r.role == NonvoterRole || !r.holdsLog then WithNonvoter(c, r.id) else WithVoter(c, r.id)
    case Leave(id) => Without(c, id)
  }

  function Applied(c: Config, ch: Change): Config
  {
    var o := match ch case Join(r) => Admitted(c, r) case Leave(id) => Removed(c, id);
    if o.Changed? then o.config else c
  }

  /** A voter that is no witness cannot make the witnesses too many. */
  lemma MoreVotersStillFew(voters: set<MemberId>, id: MemberId)
    requires Few(voters) && !IsWitness(id)
    ensures Few(voters + {id})
  {
    assert Witnesses(voters + {id}) == Witnesses(voters);
    if id in voters { assert voters + {id} == voters; }
  }

  /** What the check counts: a removal leaves a voter and witnesses few, a witness's
      vote leaves them few. */
  predicate Guard(c: Config, ch: Change)
  {
    match ch
    case Join(r) => r.role == WitnessRole && r.holdsLog ==> Few(Voters(c) - {r.id} + {r.id})
    case Leave(id) => Voters(c) != {id} && Few(Voters(c) - {id})
  }

  /** Checked at one configuration and made at another, a change keeps the voters
      sound if and only if what was counted would still count out. */
  lemma MadeSoundIff(c: Config, d: Config, ch: Change)
    requires Passes(c, ch) && Sound(d)
    ensures Sound(Made(d, ch)) <==> Guard(d, ch)
  {
    match ch
    case Join(r) =>
      NonvoterKeepsVoters(d, r.id);
      VoterJoins(d, r.id);
      assert Voters(d) - {r.id} + {r.id} == Voters(d) + {r.id};
      if r.role == VoterRole { MoreVotersStillFew(Voters(d), r.id); }
    case Leave(id) =>
      MemberLeaves(d, id);
      assert Voters(d) - {id} == {} <==> Voters(d) <= {id};
  }

  lemma ChangeKeepsSound(c: Config, ch: Change)
    requires Sound(c)
    ensures Sound(Applied(c, ch))
  {
    if Passes(c, ch) {
      MadeSoundIff(c, c, ch);
      assert Applied(c, ch) == Made(c, ch);
    }
  }

  function Bootstrapped(id: MemberId): Config
  {
    [Server(id, Voter)]
  }

  lemma BootstrapIsSound(id: MemberId)
    requires !IsWitness(id)
    ensures Sound(Bootstrapped(id))
  {
    assert Bootstrapped(id)[0].suffrage == Voter;
    assert id in Voters(Bootstrapped(id));
    assert Witnesses(Voters(Bootstrapped(id))) == {};
  }

  function After(c: Config, changes: seq<Change>): Config
    decreases |changes|
  {
    if changes == [] then c else After(Applied(c, changes[0]), changes[1..])
  }

  lemma {:induction false} EveryRunSound(c: Config, changes: seq<Change>)
    requires Sound(c)
    ensures Sound(After(c, changes))
    decreases |changes|
  {
    if changes != [] {
      ChangeKeepsSound(c, changes[0]);
      EveryRunSound(Applied(c, changes[0]), changes[1..]);
    }
  }

  // ------------------------------------------------------------------ majorities

  lemma {:induction false} SmallerSubset(a: set<MemberId>, b: set<MemberId>)
    requires a <= b
    ensures |a| <= |b|
    decreases |a|
  {
    if a != {} {
      var x :| x in a;
      SmallerSubset(a - {x}, b - {x});
    }
  }

  /** Whatever the cluster went through, every majority of its voters holds data. */
  lemma EveryMajorityHoldsData(id: MemberId, changes: seq<Change>, majority: set<MemberId>)
    requires !IsWitness(id)
    requires majority <= Voters(After(Bootstrapped(id), changes))
    requires 2 * |majority| > |Voters(After(Bootstrapped(id), changes))|
    ensures exists m :: m in majority && !IsWitness(m)
  {
    BootstrapIsSound(id);
    EveryRunSound(Bootstrapped(id), changes);
    var voters := Voters(After(Bootstrapped(id), changes));
    if forall m :: m in majority ==> IsWitness(m) {
      SmallerSubset(majority, Witnesses(voters));
    }
  }

  // ------------------------------------- a check made before its change, not with it

  /** A run in which each change was checked at some configuration before it. */
  ghost predicate CheckedBefore(cs: seq<Config>, changes: seq<Change>, at: seq<nat>)
  {
    && |cs| == |changes| + 1 && |at| == |changes|
    && (forall i :: 0 <= i < |changes| ==> at[i] <= i && Passes(cs[at[i]], changes[i]))
    && (forall i :: 0 <= i < |changes| ==> cs[i + 1] == Made(cs[i], changes[i]))
  }

  lemma {:induction false} StaysSound(cs: seq<Config>, changes: seq<Change>, at: seq<nat>, k: nat)
    requires CheckedBefore(cs, changes, at) && Sound(cs[0]) && k < |cs|
    requires forall i :: 0 <= i < |changes| ==> Guard(cs[i], changes[i])
    ensures Sound(cs[k])
  {
    if k > 0 {
      var i := k - 1;
      StaysSound(cs, changes, at, i);
      MadeSoundIff(cs[at[i]], cs[i], changes[i]);
    }
  }

  /** Such a run stays sound throughout if and only if each check would pass where its
      change is made. */
  lemma StaysSoundIff(cs: seq<Config>, changes: seq<Change>, at: seq<nat>)
    requires CheckedBefore(cs, changes, at) && Sound(cs[0])
    ensures (forall i :: 0 <= i < |cs| ==> Sound(cs[i])) <==> forall i :: 0 <= i < |changes| ==> Guard(cs[i], changes[i])
  {
    if forall i :: 0 <= i < |changes| ==> Guard(cs[i], changes[i]) {
      forall k | 0 <= k < |cs|
        ensures Sound(cs[k])
      {
        StaysSound(cs, changes, at, k);
      }
    } else {
      var i :| 0 <= i < |changes| && !Guard(cs[i], changes[i]);
      if Sound(cs[i]) {
        MadeSoundIff(cs[at[i]], cs[i], changes[i]);
        assert !Sound(cs[i + 1]);
      }
    }
  }

  /** Three members that hold data, and a witness. */
  ghost predicate ThreeAndOne(a: MemberId, b: MemberId, d: MemberId, w: MemberId)
  {
    a != b && a != d && b != d && !IsWitness(a) && !IsWitness(b) && !IsWitness(d) && IsWitness(w)
  }

  /** Checked before either is made, two removals each allowed leave too many
      witnesses: the check and the change have to be one step. */
  lemma CheckedApartFails(c: Config, a: MemberId, b: MemberId, d: MemberId, w: MemberId)
    requires ThreeAndOne(a, b, d, w) && Distinct(c) && Voters(c) == {a, b, d, w} && a in Ids(c) && b in Ids(c)
    ensures Sound(c) && Removed(c, a).Changed? && Removed(c, b).Changed?
    ensures !Few(Voters(Without(Without(c, a), b)))
  {
    FourSets(a, b, d, w);
    MemberLeaves(c, a);
    MemberLeaves(Without(c, a), b);
    assert Voters(c) - {a} == {b, d, w};
    assert Voters(c) - {b} == {a, d, w};
    assert Voters(c) - {a} - {b} == {d, w};
  }

  lemma FourSets(a: MemberId, b: MemberId, d: MemberId, w: MemberId)
    requires ThreeAndOne(a, b, d, w)
    ensures Few({a, b, d, w}) && Few({b, d, w}) && Few({a, d, w}) && !Few({d, w})
  {
    assert Witnesses({a, b, d, w}) == {w} && Witnesses({b, d, w}) == {w} && Witnesses({a, d, w}) == {w} && Witnesses({d, w}) == {w};
    assert |{a, b, d, w}| == 4 && |{b, d, w}| == 3 && |{a, d, w}| == 3 && |{d, w}| == 2;
  }
}
