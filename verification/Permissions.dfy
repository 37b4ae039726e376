/**
  Who may do what: actors (users, domains, everyone, or the members of a room) are granted
  levels on services, read in configuration order with an early return.
 */
module Permissions {
  import opened Common

  datatype ServicePermission = ServicePermission(service: Option<string>, level: string)

  datatype ActorPermission = ActorPermission(actor: string, services: seq<ServicePermission>)

  /** The error of a level that is none. */
  datatype Error = InvalidLevel

  function LevelToInt(level: string): Result<nat, Error> {
    if level == "commands" then Ok(1)
    else if level == "login" then Ok(2)
    else if level == "notifications" then Ok(3)
    else if level == "manageConnections" then Ok(4)
    else if level == "admin" then Ok(5)
    else Err(InvalidLevel)
  }

  // ---------------------------------------------------------------- specification

  /** The text before the first ':' and what follows it, if there is one. */
  function SplitOnce(s: string): (string, Option<string>) {
    if s == "" then ("", None)
    else if s[0] == ':' then ("", Some(s[1..]))
    else ([s[0]] + SplitOnce(s[1..]).0, SplitOnce(s[1..]).1)
  }

  /** The second ':'-separated part of a user id, or all of it. */
  function Domain(mxid: string): string {
    var (first, rest) := SplitOnce(mxid);
    if rest.Some? then SplitOnce(rest.value).0 else first
  }

  predicate IsRoom(actor: string) { actor != "" && actor[0] == '!' }

  /** The rooms whose membership is tracked, each empty at first. */
  function Tracked(config: seq<ActorPermission>): map<string, set<string>> {
    map i | 0 <= i < |config| && IsRoom(config[i].actor) :: config[i].actor := {}
  }

  predicate Matches(actor: string, membership: map<string, set<string>>, mxid: string) {
    if IsRoom(actor) then actor in membership && mxid in membership[actor]
    else actor == Domain(mxid) || actor == mxid || actor == "*"
  }

  /** Does the grant speak of the service? `None` asks about any. */
  predicate Concerns(grant: ServicePermission, service: Option<string>) {
    service.None? || grant.service.None? || grant.service == service || grant.service == Some("*")
  }

  /** The levels of an actor's grants on a service, in order. */
  function Levels(grants: seq<ServicePermission>, service: Option<string>): seq<string> {
    if grants == [] then []
    else (if Concerns(grants[0], service) then [grants[0].level] else []) + Levels(grants[1..], service)
  }

  /** All levels the configuration holds for a user on a service, in order. */
  function AllLevels(config: seq<ActorPermission>, membership: map<string, set<string>>, mxid: string,
                     service: Option<string>): seq<string> {
    if config == [] then []
    else
      (if Matches(config[0].actor, membership, mxid) then Levels(config[0].services, service) else [])
      + AllLevels(config[1..], membership, mxid, service)
  }

  /** Reads levels in order: the first invalid one is an error, the first sufficient one a yes. */
  function Decide(levels: seq<string>, needed: nat): Result<bool, Error> {
    if levels == [] then Ok(false)
    else if LevelToInt(levels[0]).Err? then Err(InvalidLevel)
    else if LevelToInt(levels[0]).value >= needed then Ok(true)
    else Decide(levels[1..], needed)
  }

  /** check_action for Some(service), check_action_any for None. */
  function Check(config: seq<ActorPermission>, membership: map<string, set<string>>, mxid: string,
                 service: Option<string>, permission: string): Result<bool, Error> {
    if LevelToInt(permission).Err? then Err(InvalidLevel)
    else Decide(AllLevels(config, membership, mxid, service), LevelToInt(permission).value)
  }

  // ---------------------------------------------------------------- the membership cache

  datatype CacheOp = Add(room: string, user: string) | Remove(room: string, user: string)

  function Cached(membership: map<string, set<string>>, op: CacheOp): map<string, set<string>> {
    if op.room !in membership then membership
    else membership[op.room := if op.Add? then membership[op.room] + {op.user} else membership[op.room] - {op.user}]
  }

  function CachedAll(membership: map<string, set<string>>, ops: seq<CacheOp>): map<string, set<string>> {
    if ops == [] then membership else Cached(CachedAll(membership, ops[..|ops| - 1]), ops[|ops| - 1])
  }

  /** Was the last operation on this user in this room an add? */
  predicate LastAdded(ops: seq<CacheOp>, room: string, user: string) {
    ops != [] &&
    var last := ops[|ops| - 1];
    if last.room == room && last.user == user then last.Add? else LastAdded(ops[..|ops| - 1], room, user)
  }

  /** From the start on, a room actor matches exactly the users last added to a tracked room,
      and exactly the rooms the configuration names are tracked. */
  lemma {:induction false} CacheIsLastOp(config: seq<ActorPermission>, ops: seq<CacheOp>, room: string, user: string)
    ensures var m := CachedAll(Tracked(config), ops);
            && (room in m <==> exists i :: 0 <= i < |config| && IsRoom(config[i].actor) && config[i].actor == room)
            && (IsRoom(room) ==> (Matches(room, m, user) <==> room in m && LastAdded(ops, room, user)))
  {
    if ops != [] {
      CacheIsLastOp(config, ops[..|ops| - 1], room, user);
    }
  }

  // ---------------------------------------------------------------- the object

  class BridgePermissions {
    const config: seq<ActorPermission>
    var roomMembership: map<string, set<string>>

    constructor (config: seq<ActorPermission>)
      ensures this.config == config && roomMembership == Tracked(config)
    {
      this.config := config;
      roomMembership := map[];
      new;
      for i := 0 to |config|
        invariant roomMembership == Tracked(config[..i])
      {
        assert config[..i + 1] == config[..i] + [config[i]];
        if IsRoom(config[i].actor) {
          roomMembership := roomMembership[config[i].actor := {}];
        }
        TrackedExtends(config[..i], config[i]);
      }
      assert config[..|config|] == config;
    }

    method AddMemberToCache(roomId: string, mxid: string)
      modifies this`roomMembership
      ensures roomMembership == Cached(old(roomMembership), Add(roomId, mxid))
    {
      if roomId in roomMembership {
        roomMembership := roomMembership[roomId := roomMembership[roomId] + {mxid}];
      }
    }

    method RemoveMemberFromCache(roomId: string, mxid: string)
      modifies this`roomMembership
      ensures roomMembership == Cached(old(roomMembership), Remove(roomId, mxid))
    {
      if roomId in roomMembership {
        roomMembership := roomMembership[roomId := roomMembership[roomId] - {mxid}];
      }
    }

    /** The loop over one actor's grants; None means that it ran to the end. */
    method CheckGrants(grants: seq<ServicePermission>, service: Option<string>, needed: nat)
      returns (r: Option<Result<bool, Error>>)
      ensures r == if Decide(Levels(grants, service), needed) == Ok(false) then None
                   else Some(Decide(Levels(grants, service), needed))
    {
      for i := 0 to |grants|
        invariant Decide(Levels(grants[i..], service), needed) == Decide(Levels(grants, service), needed)
      {
        var grant := grants[i];
        assert grants[i..][1..] == grants[i + 1..];
        if !Concerns(grant, service) {
          assert Levels(grants[i..], service) == Levels(grants[i + 1..], service);
          continue;
        }
        var level := LevelToInt(grant.level);
        assert Levels(grants[i..], service)[0] == grant.level;
        assert Levels(grants[i..], service)[1..] == Levels(grants[i + 1..], service);
        if level.Err? {
          return Some(Err(InvalidLevel));
        }
        if level.value >= needed {
          return Some(Ok(true));
        }
      }
      return None;
    }

    /** check_action with a service, check_action_any without. */
    method CheckAction(mxid: string, service: Option<string>, permission: string) returns (r: Result<bool, Error>)
      ensures r == Check(config, roomMembership, mxid, service, permission)
    {
      var needed := LevelToInt(permission);
      if needed.Err? {
        return Err(InvalidLevel);
      }
      for i := 0 to |config|
        invariant Decide(AllLevels(config[i..], roomMembership, mxid, service), needed.value)
                  == Decide(AllLevels(config, roomMembership, mxid, service), needed.value)
      {
        assert config[i..][1..] == config[i + 1..];
        if !Matches(config[i].actor, roomMembership, mxid) {
          assert AllLevels(config[i..], roomMembership, mxid, service) == AllLevels(config[i + 1..], roomMembership, mxid, service);
          continue;
        }
        DecideJoined(Levels(config[i].services, service), AllLevels(config[i + 1..], roomMembership, mxid, service), needed.value);
        var found := CheckGrants(config[i].services, service, needed.value);
        if found.Some? {
          return found.value;
        }
      }
      return Ok(false);
    }
  }

  lemma TrackedExtends(config: seq<ActorPermission>, a: ActorPermission)
    ensures Tracked(config + [a]) == if IsRoom(a.actor) then Tracked(config)[a.actor := {}] else Tracked(config)
  {
    var t, t' := Tracked(config), Tracked(config + [a]);
    assert forall i :: 0 <= i < |config| ==> (config + [a])[i] == config[i];
    if IsRoom(a.actor) {
      assert (config + [a])[|config|].actor in t';
    }
    forall k | k in t ensures k in t' {
      var i :| 0 <= i < |config| && IsRoom(config[i].actor) && config[i].actor == k;
      assert (config + [a])[i].actor == k;
    }
  }

  lemma {:induction false} DecideJoined(a: seq<string>, b: seq<string>, needed: nat)
    ensures Decide(a + b, needed) == if Decide(a, needed) == Ok(false) then Decide(b, needed) else Decide(a, needed)
  {
    if a == [] {
      assert a + b == b;
    } else {
      assert (a + b)[1..] == a[1..] + b;
      DecideJoined(a[1..], b, needed);
    }
  }

  // ---------------------------------------------------------------- what the answers mean

  predicate Valid(level: string) { LevelToInt(level).Ok? }

  predicate Suffices(level: string, needed: nat) { Valid(level) && LevelToInt(level).value >= needed }

  predicate YesAt(levels: seq<string>, i: nat, needed: nat) {
    i < |levels| && Suffices(levels[i], needed) && forall j :: 0 <= j < i ==> Valid(levels[j])
  }

  predicate ErrorAt(levels: seq<string>, i: nat, needed: nat) {
    i < |levels| && !Valid(levels[i]) && forall j :: 0 <= j < i ==> !Suffices(levels[j], needed)
  }

  lemma AtTail(levels: seq<string>, i: nat, needed: nat)
    requires levels != [] && i > 0
    ensures YesAt(levels, i, needed) <==> Valid(levels[0]) && YesAt(levels[1..], i - 1, needed)
    ensures ErrorAt(levels, i, needed) <==> !Suffices(levels[0], needed) && ErrorAt(levels[1..], i - 1, needed)
  {
    assert forall j :: 0 < j < |levels| ==> levels[j] == levels[1..][j - 1];
    assert forall j :: 0 <= j < |levels[1..]| ==> levels[1..][j] == levels[j + 1];
  }

  /** Yes iff some level suffices and none before it is invalid; an error iff some level is
      invalid and none before it suffices. */
  lemma {:induction false} DecideMeans(levels: seq<string>, needed: nat)
    ensures Decide(levels, needed) == Ok(true) <==> exists i :: YesAt(levels, i, needed)
    ensures Decide(levels, needed).Err? <==> exists i :: ErrorAt(levels, i, needed)
  {
    if levels != [] {
      DecideMeans(levels[1..], needed);
      forall i: nat | YesAt(levels, i, needed) && i > 0 ensures Valid(levels[0]) && YesAt(levels[1..], i - 1, needed) {
        AtTail(levels, i, needed);
      }
      forall i: nat | ErrorAt(levels, i, needed) && i > 0 ensures !Suffices(levels[0], needed) && ErrorAt(levels[1..], i - 1, needed) {
        AtTail(levels, i, needed);
      }
      forall i: nat | YesAt(levels[1..], i, needed) && Valid(levels[0]) ensures YesAt(levels, i + 1, needed) {
        AtTail(levels, i + 1, needed);
      }
      forall i: nat | ErrorAt(levels[1..], i, needed) && !Suffices(levels[0], needed) ensures ErrorAt(levels, i + 1, needed) {
        AtTail(levels, i + 1, needed);
      }
      assert YesAt(levels, 0, needed) <==> Suffices(levels[0], needed);
      assert ErrorAt(levels, 0, needed) <==> !Valid(levels[0]);
    }
  }

  // ---------------------------------------------------------------- any service

  lemma {:induction false} NoneMeansNo(grants: seq<ServicePermission>, service: Option<string>, needed: nat)
    requires Decide(Levels(grants, None), needed) == Ok(false)
    ensures Decide(Levels(grants, service), needed) == Ok(false)
  {
    if grants != [] {
      assert Levels(grants, None)[1..] == Levels(grants[1..], None);
      NoneMeansNo(grants[1..], service, needed);
      DecideJoined(if Concerns(grants[0], service) then [grants[0].level] else [], Levels(grants[1..], service), needed);
    }
  }

  lemma {:induction false} GrantForAny(grants: seq<ServicePermission>, needed: nat) returns (service: string)
    requires Decide(Levels(grants, None), needed) == Ok(true)
    ensures Decide(Levels(grants, Some(service)), needed) == Ok(true)
  {
    assert Levels(grants, None)[1..] == Levels(grants[1..], None);
    if Suffices(grants[0].level, needed) {
      service := if grants[0].service.Some? then grants[0].service.value else "";
      assert Levels(grants, Some(service))[0] == grants[0].level;
    } else {
      service := GrantForAny(grants[1..], needed);
      DecideJoined(if Concerns(grants[0], Some(service)) then [grants[0].level] else [],
                   Levels(grants[1..], Some(service)), needed);
    }
  }

  lemma {:induction false} ServiceForAny(config: seq<ActorPermission>, m: map<string, set<string>>, mxid: string, needed: nat)
    returns (service: string)
    requires Decide(AllLevels(config, m, mxid, None), needed) == Ok(true)
    ensures Decide(AllLevels(config, m, mxid, Some(service)), needed) == Ok(true)
  {
    var here := Matches(config[0].actor, m, mxid);
    var grants := config[0].services;
    DecideJoined(if here then Levels(grants, None) else [], AllLevels(config[1..], m, mxid, None), needed);
    if here && Decide(Levels(grants, None), needed) == Ok(true) {
      service := GrantForAny(grants, needed);
    } else {
      service := ServiceForAny(config[1..], m, mxid, needed);
      if here {
        NoneMeansNo(grants, Some(service), needed);
      }
    }
    DecideJoined(if here then Levels(grants, Some(service)) else [], AllLevels(config[1..], m, mxid, Some(service)), needed);
  }

  lemma {:induction false} GrantsNotNo(grants: seq<ServicePermission>, service: Option<string>, needed: nat)
    requires Decide(Levels(grants, service), needed) == Ok(true)
    ensures Decide(Levels(grants, None), needed) != Ok(false)
  {
    assert Levels(grants, None)[1..] == Levels(grants[1..], None);
    if Valid(grants[0].level) && !Suffices(grants[0].level, needed) {
      DecideJoined(if Concerns(grants[0], service) then [grants[0].level] else [], Levels(grants[1..], service), needed);
      GrantsNotNo(grants[1..], service, needed);
    }
  }

  lemma {:induction false} ConfigNotNo(config: seq<ActorPermission>, m: map<string, set<string>>, mxid: string,
                                       service: Option<string>, needed: nat)
    requires Decide(AllLevels(config, m, mxid, service), needed) == Ok(true)
    ensures Decide(AllLevels(config, m, mxid, None), needed) != Ok(false)
  {
    var here := Matches(config[0].actor, m, mxid);
    var grants := config[0].services;
    DecideJoined(if here then Levels(grants, service) else [], AllLevels(config[1..], m, mxid, service), needed);
    DecideJoined(if here then Levels(grants, None) else [], AllLevels(config[1..], m, mxid, None), needed);
    if here && Decide(Levels(grants, service), needed) == Ok(true) {
      GrantsNotNo(grants, service, needed);
    } else {
      ConfigNotNo(config[1..], m, mxid, service, needed);
    }
  }

  predicate LevelsValid(config: seq<ActorPermission>) {
    forall i, j :: 0 <= i < |config| && 0 <= j < |config[i].services| ==> Valid(config[i].services[j].level)
  }

  lemma {:induction false} ValidGrants(grants: seq<ServicePermission>, service: Option<string>, needed: nat)
    requires forall j :: 0 <= j < |grants| ==> Valid(grants[j].level)
    ensures Decide(Levels(grants, service), needed).Ok?
  {
    if grants != [] {
      ValidGrants(grants[1..], service, needed);
      DecideJoined(if Concerns(grants[0], service) then [grants[0].level] else [], Levels(grants[1..], service), needed);
    }
  }

  lemma {:induction false} ValidConfig(config: seq<ActorPermission>, m: map<string, set<string>>, mxid: string,
                                       service: Option<string>, needed: nat)
    requires LevelsValid(config)
    ensures Decide(AllLevels(config, m, mxid, service), needed).Ok?
  {
    if config != [] {
      ValidGrants(config[0].services, service, needed);
      ValidConfig(config[1..], m, mxid, service, needed);
      DecideJoined(if Matches(config[0].actor, m, mxid) then Levels(config[0].services, service) else [],
                   AllLevels(config[1..], m, mxid, service), needed);
    }
  }

  /** Grant `j` of actor `i` matches the user, concerns the service and suffices. */
  predicate GrantAt(config: seq<ActorPermission>, m: map<string, set<string>>, mxid: string, service: Option<string>,
                    needed: nat, i: nat, j: nat) {
    && i < |config| && j < |config[i].services|
    && Matches(config[i].actor, m, mxid)
    && Concerns(config[i].services[j], service)
    && Suffices(config[i].services[j].level, needed)
  }

  lemma {:induction false} LevelsMember(grants: seq<ServicePermission>, service: Option<string>)
    ensures forall l :: l in Levels(grants, service) <==>
              exists j :: 0 <= j < |grants| && Concerns(grants[j], service) && grants[j].level == l
  {
    if grants != [] {
      LevelsMember(grants[1..], service);
      assert forall j :: 0 < j < |grants| ==> grants[j] == grants[1..][j - 1];
      assert forall j :: 0 <= j < |grants[1..]| ==> grants[1..][j] == grants[j + 1];
      forall l ensures l in Levels(grants, service) <==>
          exists j :: 0 <= j < |grants| && Concerns(grants[j], service) && grants[j].level == l
      {
        if l in Levels(grants[1..], service) {
          var j :| 0 <= j < |grants[1..]| && Concerns(grants[1..][j], service) && grants[1..][j].level == l;
          assert Concerns(grants[j + 1], service) && grants[j + 1].level == l;
        }
      }
    }
  }

  lemma {:induction false} AllLevelsMember(config: seq<ActorPermission>, m: map<string, set<string>>, mxid: string,
                                           service: Option<string>, l: string)
    ensures l in AllLevels(config, m, mxid, service) <==>
              exists i :: 0 <= i < |config| && Matches(config[i].actor, m, mxid) && l in Levels(config[i].services, service)
  {
    if config != [] {
      AllLevelsMember(config[1..], m, mxid, service, l);
      assert forall i :: 0 < i < |config| ==> config[i] == config[1..][i - 1];
      if l in AllLevels(config[1..], m, mxid, service) {
        var i :| 0 <= i < |config[1..]| && Matches(config[1..][i].actor, m, mxid) && l in Levels(config[1..][i].services, service);
        assert config[i + 1] == config[1..][i];
      }
    }
  }

  /** With valid levels, a user is allowed iff some grant of some matching actor concerns the
      service and suffices, wherever it stands. */
  lemma AllowedIffGranted(config: seq<ActorPermission>, m: map<string, set<string>>, mxid: string, service: Option<string>,
                          permission: string)
    requires LevelsValid(config) && Valid(permission)
    ensures var needed := LevelToInt(permission).value;
            Check(config, m, mxid, service, permission)
            == Ok(exists i: nat, j: nat :: GrantAt(config, m, mxid, service, needed, i, j))
  {
    var needed := LevelToInt(permission).value;
    var levels := AllLevels(config, m, mxid, service);
    ValidConfig(config, m, mxid, service, needed);
    DecideMeans(levels, needed);
    var r := Decide(levels, needed);
    if i: nat, j: nat :| GrantAt(config, m, mxid, service, needed, i, j) {
      var l := config[i].services[j].level;
      LevelsMember(config[i].services, service);
      AllLevelsMember(config, m, mxid, service, l);
      SufficientIsFound(levels, l, needed);
      assert r.value;
    }
    if r.value {
      var k: nat :| YesAt(levels, k, needed);
      AllLevelsMember(config, m, mxid, service, levels[k]);
      var i :| 0 <= i < |config| && Matches(config[i].actor, m, mxid) && levels[k] in Levels(config[i].services, service);
      LevelsMember(config[i].services, service);
      var j :| 0 <= j < |config[i].services| && Concerns(config[i].services[j], service)
               && config[i].services[j].level == levels[k];
      assert GrantAt(config, m, mxid, service, needed, i, j);
    }
  }

  lemma {:induction false} SufficientIsFound(levels: seq<string>, l: string, needed: nat)
    requires l in levels && Suffices(l, needed)
    ensures Decide(levels, needed) != Ok(false)
  {
    if levels[0] != l && Decide(levels, needed) == Decide(levels[1..], needed) {
      SufficientIsFound(levels[1..], l, needed);
    }
  }

  /** A yes for any service is a yes for some service. Conversely, a user who is allowed for some
      service is allowed for any iff no invalid level of the user stands before the first
      sufficient one; invalid levels of actors that do not match the user never matter. */
  lemma AnyIffSome(config: seq<ActorPermission>, m: map<string, set<string>>, mxid: string, permission: string)
    requires Valid(permission)
    ensures var needed := LevelToInt(permission).value;
            Check(config, m, mxid, None, permission) == Ok(true) <==>
              && (exists s :: Check(config, m, mxid, Some(s), permission) == Ok(true))
              && !(exists i :: ErrorAt(AllLevels(config, m, mxid, None), i, needed))
  {
    var needed := LevelToInt(permission).value;
    var any := Check(config, m, mxid, None, permission);
    DecideMeans(AllLevels(config, m, mxid, None), needed);
    if any == Ok(true) {
      var s := ServiceForAny(config, m, mxid, needed);
      assert Check(config, m, mxid, Some(s), permission) == Ok(true);
    }
    if s :| Check(config, m, mxid, Some(s), permission) == Ok(true) {
      ConfigNotNo(config, m, mxid, Some(s), needed);
      assert any.Ok? ==> any.value;
    }
  }

  /** In particular, with valid levels the two agree. */
  lemma ValidLevelsAgree(config: seq<ActorPermission>, m: map<string, set<string>>, mxid: string, permission: string)
    requires LevelsValid(config)
    ensures Check(config, m, mxid, None, permission) == Ok(true) <==>
              exists s :: Check(config, m, mxid, Some(s), permission) == Ok(true)
  {
    if Valid(permission) {
      var needed := LevelToInt(permission).value;
      AnyIffSome(config, m, mxid, permission);
      ValidConfig(config, m, mxid, None, needed);
      DecideMeans(AllLevels(config, m, mxid, None), needed);
    }
  }

  /** With an invalid level on another service, a yes for one service can be an error for any. */
  lemma InvalidLevelBreaksAny()
    ensures var config := [ActorPermission("*", [ServicePermission(Some("a"), "none"), ServicePermission(Some("b"), "admin")])];
            && Check(config, map[], "@u:h", Some("b"), "login") == Ok(true)
            && Check(config, map[], "@u:h", None, "login") == Err(InvalidLevel)
  {
    var grants := [ServicePermission(Some("a"), "none"), ServicePermission(Some("b"), "admin")];
    var config := [ActorPermission("*", grants)];
    assert grants[1..] == [ServicePermission(Some("b"), "admin")] && config[1..] == [];
    assert Levels(grants[1..], Some("b")) == ["admin"];
    assert Levels(grants, Some("b")) == ["admin"];
    assert AllLevels(config, map[], "@u:h", Some("b")) == ["admin"];
    assert AllLevels(config, map[], "@u:h", None)[0] == "none";
  }

  // ---------------------------------------------------------------- lower levels

  lemma {:induction false} LowerDecides(levels: seq<string>, needed: nat, less: nat)
    requires less <= needed && Decide(levels, needed) == Ok(true)
    ensures Decide(levels, less) == Ok(true)
  {
    if !Suffices(levels[0], less) {
      LowerDecides(levels[1..], needed, less);
    }
  }

  /** Even with invalid levels about, what is allowed at one level is allowed at any lower one. */
  lemma LowerIsAllowed(config: seq<ActorPermission>, m: map<string, set<string>>, mxid: string, service: Option<string>,
                       permission: string, lower: string)
    requires Check(config, m, mxid, service, permission) == Ok(true)
    requires Valid(lower) && LevelToInt(lower).value <= LevelToInt(permission).value
    ensures Check(config, m, mxid, service, lower) == Ok(true)
  {
    LowerDecides(AllLevels(config, m, mxid, service), LevelToInt(permission).value, LevelToInt(lower).value);
  }

  // ---------------------------------------------------------------- in plain words

  /** The levels, lowest first; no other is valid. */
  function AllLevelNames(): seq<string> {
    ["commands", "login", "notifications", "manageConnections", "admin"]
  }

  lemma LevelsInOrder(level: string)
    ensures Valid(level) <==> level in AllLevelNames()
    ensures forall i, j :: 0 <= i < |AllLevelNames()| && 0 <= j < |AllLevelNames()| ==>
              && Valid(AllLevelNames()[i]) && Valid(AllLevelNames()[j])
              && (LevelToInt(AllLevelNames()[i]).value <= LevelToInt(AllLevelNames()[j]).value <==> i <= j)
  {
    var names := AllLevelNames();
    assert names[0] == "commands" && names[1] == "login" && names[2] == "notifications"
           && names[3] == "manageConnections" && names[4] == "admin";
  }

  /** An actor is a room the user is a cached member of, everyone, the user, or the user's
      server. */
  lemma ActorMatchesIff(actor: string, m: map<string, set<string>>, user: string, host: string)
    requires ':' !in user && ':' !in host
    ensures Matches(actor, m, user + ":" + host) <==>
              if actor != "" && actor[0] == '!' then actor in m && user + ":" + host in m[actor]
              else actor == "*" || actor == user + ":" + host || actor == host
  {
    DomainIs(user, host, "");
  }

  /** A grant without a service, or for "*", speaks of every service. */
  lemma GrantConcernsIff(grant: ServicePermission, service: string)
    ensures Concerns(grant, None)
    ensures Concerns(grant, Some(service)) <==>
              grant.service == None || grant.service == Some("*") || grant.service == Some(service)
  {
  }

  /** Grant `j` of actor `i` gives the user the level with number `needed` on the service. */
  predicate Grants(config: seq<ActorPermission>, m: map<string, set<string>>, user: string, host: string, service: string,
                   needed: nat, i: nat, j: nat) {
    && i < |config| && j < |config[i].services|
    && var actor, grant := config[i].actor, config[i].services[j];
    && (if actor != "" && actor[0] == '!' then actor in m && user + ":" + host in m[actor]
        else actor == "*" || actor == user + ":" + host || actor == host)
    && (grant.service == None || grant.service == Some("*") || grant.service == Some(service))
    && exists l :: needed <= l < |AllLevelNames()| && AllLevelNames()[l] == grant.level
  }

  lemma GrantsIff(config: seq<ActorPermission>, m: map<string, set<string>>, user: string, host: string, service: string,
                  needed: nat, i: nat, j: nat)
    requires ':' !in user && ':' !in host && needed < |AllLevelNames()|
    ensures Valid(AllLevelNames()[needed])
    ensures Grants(config, m, user, host, service, needed, i, j) <==>
              GrantAt(config, m, user + ":" + host, Some(service), LevelToInt(AllLevelNames()[needed]).value, i, j)
  {
    LevelsInOrder(AllLevelNames()[needed]);
    if i < |config| && j < |config[i].services| {
      ActorMatchesIff(config[i].actor, m, user, host);
      GrantConcernsIff(config[i].services[j], service);
      LevelsInOrder(config[i].services[j].level);
    }
  }

  /** With valid levels a user is allowed a level on a service iff some grant, of a room the user
      is in, everyone, the user or the user's server, for that service or all, has at least that
      level. */
  lemma AllowedIff(config: seq<ActorPermission>, m: map<string, set<string>>, user: string, host: string, service: string,
                   needed: nat)
    requires LevelsValid(config) && ':' !in user && ':' !in host && needed < |AllLevelNames()|
    ensures Check(config, m, user + ":" + host, Some(service), AllLevelNames()[needed])
            == Ok(exists i: nat, j: nat :: Grants(config, m, user, host, service, needed, i, j))
  {
    var level := AllLevelNames()[needed];
    LevelsInOrder(level);
    AllowedIffGranted(config, m, user + ":" + host, Some(service), level);
    forall i: nat, j: nat
      ensures Grants(config, m, user, host, service, needed, i, j) <==>
              GrantAt(config, m, user + ":" + host, Some(service), LevelToInt(level).value, i, j)
    {
      GrantsIff(config, m, user, host, service, needed, i, j);
    }
  }

  // ---------------------------------------------------------------- domains

  lemma {:induction false} SplitAt(a: string, b: string)
    requires ':' !in a
    ensures SplitOnce(a + ":" + b) == (a, Some(b)) && SplitOnce(a) == (a, None)
  {
    if a == "" {
      assert a + ":" + b == ":" + b;
    } else {
      assert (a + ":" + b)[1..] == a[1..] + ":" + b && (a + ":" + b)[0] == a[0];
      assert a[0] in a && [a[0]] + a[1..] == a;
      SplitAt(a[1..], b);
    }
  }

  /** The domain is what stands after the user part, without a port, or all if there is no ':'. */
  lemma DomainIs(user: string, host: string, port: string)
    requires ':' !in user && ':' !in host
    ensures Domain(user + ":" + host) == host && Domain(user + ":" + (host + ":" + port)) == host
    ensures Domain(user) == user
  {
    SplitAt(user, host);
    SplitAt(user, host + ":" + port);
    SplitAt(host, port);
  }
}
