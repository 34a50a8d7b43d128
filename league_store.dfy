// The league store of src/store/leagueStore.ts: the in-memory state
// (players, rounds, active weeks, signed-in user and the credentials table)
// and every action that rewrites it. Each round action is a pure rewrite of
// the round list (the `map` or append the source hands to `set`), and the
// class `League` holds the state and applies them.
module LeagueStore {
  import opened Types
  import opened Strings
  import Scoring
  import Scorecard

  /** An entry of the in-memory credentials table, keyed by username. */
  datatype Credential = Credential(password: string, email: string, name: string, id: string)

  /** A best-effort write the store hands to the cloud document store. */
  datatype CloudWrite =
    | RoundWrite(round: WeeklyRound)
    | PlayerWrite(player: Player)
    | WeekWrite(week: int, active: bool)

  /** `user-${username}` */
  function PlayerId(username: string): string
  {
    "user-" + username
  }

  /** `round-${playerId}-${week}` */
  function RoundId(playerId: string, week: int): string
  {
    "round-" + playerId + "-" + IntToString(week)
  }

  /** The two commissioners the store starts with. */
  function InitialPlayers(): (ps: seq<Player>)
    ensures |ps| == 2
    ensures forall i :: 0 <= i < |ps| ==> ps[i].isCommissioner && ps[i].buyInPaid
    ensures forall i :: 0 <= i < |ps| ==> ps[i].id == PlayerId(ps[i].username)
    ensures ps[0].username != ps[1].username
  {
    [ Player("user-alex", "alex", "alex@example.com", "Alex", true, true),
      Player("user-jeb", "jeb", "jeb@example.com", "Jeb", true, true) ]
  }

  /** The demo credentials table. */
  function InitialUsers(): (users: map<string, Credential>)
    ensures forall p :: p in InitialPlayers() ==> p.username in users && users[p.username].id == p.id
  {
    map[
      "alex" := Credential("alex123", "alex@example.com", "Alex", "user-alex"),
      "jeb" := Credential("jeb123", "jeb@example.com", "Jeb", "user-jeb")
    ]
  }

  /** The test every round action applies: `r.playerId === playerId && r.week === week`. */
  predicate Matches(r: WeeklyRound, playerId: string, week: int)
  {
    r.playerId == playerId && r.week == week
  }

  /** `rounds.find(...)` with that test: the first round of the player for the week. */
  function FindRound(rounds: seq<WeeklyRound>, playerId: string, week: int): (r: Option<WeeklyRound>)
    ensures r.Some? ==> r.value in rounds && Matches(r.value, playerId, week)
    ensures r.None? <==> forall i :: 0 <= i < |rounds| ==> !Matches(rounds[i], playerId, week)
  {
    if |rounds| == 0 then None
    else if Matches(rounds[0], playerId, week) then Some(rounds[0])
    else FindRound(rounds[1..], playerId, week)
  }

  /** `rounds.find` for the signed-in user; with no user `currentUser?.id` matches no round. */
  function FindUserRound(rounds: seq<WeeklyRound>, user: Option<AuthUser>, week: int): (r: Option<WeeklyRound>)
    ensures user.None? ==> r.None?
    ensures user.Some? ==> r == FindRound(rounds, user.value.id, week)
  {
    if user.None? then None else FindRound(rounds, user.value.id, week)
  }

  /** `players.find((p) => p.username === username)` */
  function FindPlayer(players: seq<Player>, username: string): (p: Option<Player>)
    ensures p.Some? ==> p.value in players && p.value.username == username
    ensures p.None? <==> forall i :: 0 <= i < |players| ==> players[i].username != username
  {
    if |players| == 0 then None
    else if players[0].username == username then Some(players[0])
    else FindPlayer(players[1..], username)
  }

  // ---------------------------------------------------------------------------
  // Invariants of the round list

  /** Every round's stored total is the sum of its strokes. */
  ghost predicate TotalsMatch(rounds: seq<WeeklyRound>)
  {
    forall i :: 0 <= i < |rounds| ==> rounds[i].totalScore == Scoring.RoundTotal(rounds[i].holeScores)
  }

  predicate AllDeclared(rounds: seq<WeeklyRound>)
  {
    forall i :: 0 <= i < |rounds| ==> rounds[i].declared
  }

  /** At most one round per (player, week). */
  predicate OnePerPlayerWeek(rounds: seq<WeeklyRound>)
  {
    forall i, j :: 0 <= i < j < |rounds| ==> !Matches(rounds[j], rounds[i].playerId, rounds[i].week)
  }

  predicate LockedOnlyIfSubmitted(rounds: seq<WeeklyRound>)
  {
    forall i :: 0 <= i < |rounds| ==> rounds[i].locked ==> rounds[i].submitted
  }

  /** What every store action keeps true of the round list. */
  ghost predicate RoundsInvariant(rounds: seq<WeeklyRound>)
  {
    TotalsMatch(rounds) && AllDeclared(rounds) && OnePerPlayerWeek(rounds)
  }

  predicate NoDuplicates(weeks: seq<int>)
  {
    forall i, j :: 0 <= i < j < |weeks| ==> weeks[i] != weeks[j]
  }

  /** With one round per (player, week), the lookup finds that round. */
  lemma FindRoundUnique(rounds: seq<WeeklyRound>, k: nat)
    requires OnePerPlayerWeek(rounds) && k < |rounds|
    ensures FindRound(rounds, rounds[k].playerId, rounds[k].week) == Some(rounds[k])
  {
    var found := FindRound(rounds, rounds[k].playerId, rounds[k].week);
    var j :| 0 <= j < |rounds| && rounds[j] == found.value;
    if j < k {
      assert !Matches(rounds[k], rounds[j].playerId, rounds[j].week);
    } else if k < j {
      assert !Matches(rounds[j], rounds[k].playerId, rounds[k].week);
    }
  }

  // ---------------------------------------------------------------------------
  // Round actions as rewrites of the round list

  /** Round fields no action ever rewrites. */
  predicate SameIdentity(a: WeeklyRound, b: WeeklyRound)
  {
    a.id == b.id && a.playerId == b.playerId && a.week == b.week && a.declared == b.declared && a.declaredAt == b.declaredAt
  }

  /** The round `declareRound` creates. */
  function NewRound(playerId: string, week: int, now: string): (r: WeeklyRound)
    ensures r.id == RoundId(playerId, week) && Matches(r, playerId, week)
    ensures r.declared && r.declaredAt == Some(now)
    ensures Scorecard.Numbered(r.holeScores)
    ensures forall i :: 0 <= i < |r.holeScores| ==> r.holeScores[i].strokes == 0
    ensures r.totalScore == 0 == Scoring.RoundTotal(r.holeScores)
    ensures !r.submitted && !r.locked && r.submittedAt == None && r.photoUrl == None
  {
    var holes := Scorecard.NineHoles(map[]);
    Scoring.RoundTotalBounds(holes, 0, 0);
    WeeklyRound(RoundId(playerId, week), playerId, week, true, Some(now), holes, 0, false, None, None, false)
  }

  /** `declareRound`: appends a new round unless the player already has one for the week. */
  function DeclaredRounds(rounds: seq<WeeklyRound>, playerId: string, week: int, now: string): (r: seq<WeeklyRound>)
    ensures rounds <= r && |r| <= |rounds| + 1
    ensures |r| == |rounds| + 1 <==> FindRound(rounds, playerId, week).None?
    ensures |r| == |rounds| + 1 ==> r[|rounds|] == NewRound(playerId, week, now)
    ensures FindRound(r, playerId, week).Some?
  {
    if FindRound(rounds, playerId, week).Some? then rounds
    else
      var r := rounds + [NewRound(playerId, week, now)];
      assert Matches(r[|rounds|], playerId, week);
      r
  }

  function SubmittedRound(r: WeeklyRound, holes: seq<HoleScore>, photoUrl: Option<string>, now: string): WeeklyRound
  {
    r.(holeScores := holes, totalScore := Scoring.RoundTotal(holes), submitted := true,
       submittedAt := Some(now), photoUrl := photoUrl, locked := true)
  }

  /** `submitRound`: every matching round takes the card, its total, the photo and both flags. */
  function SubmittedRounds(rounds: seq<WeeklyRound>, playerId: string, week: int,
                           holes: seq<HoleScore>, photoUrl: Option<string>, now: string): (r: seq<WeeklyRound>)
    ensures |r| == |rounds|
    ensures forall i :: 0 <= i < |r| && !Matches(rounds[i], playerId, week) ==> r[i] == rounds[i]
    ensures forall i :: 0 <= i < |r| && Matches(rounds[i], playerId, week) ==>
      && SameIdentity(r[i], rounds[i])
      && r[i].holeScores == holes && r[i].totalScore == Scoring.RoundTotal(holes)
      && r[i].submitted && r[i].locked && r[i].submittedAt == Some(now) && r[i].photoUrl == photoUrl
  {
    seq(|rounds|, i requires 0 <= i < |rounds| =>
      if Matches(rounds[i], playerId, week) then SubmittedRound(rounds[i], holes, photoUrl, now) else rounds[i])
  }

  /** `editScore` and `updateRound`: every matching round takes the card and its total, nothing else. */
  function EditedRounds(rounds: seq<WeeklyRound>, playerId: string, week: int, holes: seq<HoleScore>): (r: seq<WeeklyRound>)
    ensures |r| == |rounds|
    ensures forall i :: 0 <= i < |r| && !Matches(rounds[i], playerId, week) ==> r[i] == rounds[i]
    ensures forall i :: 0 <= i < |r| && Matches(rounds[i], playerId, week) ==>
      && SameIdentity(r[i], rounds[i])
      && r[i].holeScores == holes && r[i].totalScore == Scoring.RoundTotal(holes)
      && r[i].submitted == rounds[i].submitted && r[i].submittedAt == rounds[i].submittedAt
      && r[i].locked == rounds[i].locked && r[i].photoUrl == rounds[i].photoUrl
  {
    seq(|rounds|, i requires 0 <= i < |rounds| =>
      if Matches(rounds[i], playerId, week)
      then rounds[i].(holeScores := holes, totalScore := Scoring.RoundTotal(holes))
      else rounds[i])
  }

  /** `lockScore`: every matching round is locked, nothing else changes. */
  function LockedRounds(rounds: seq<WeeklyRound>, playerId: string, week: int): (r: seq<WeeklyRound>)
    ensures |r| == |rounds|
    ensures forall i :: 0 <= i < |r| && !Matches(rounds[i], playerId, week) ==> r[i] == rounds[i]
    ensures forall i :: 0 <= i < |r| && Matches(rounds[i], playerId, week) ==>
      r[i].locked && r[i].(locked := rounds[i].locked) == rounds[i]
  {
    seq(|rounds|, i requires 0 <= i < |rounds| =>
      if Matches(rounds[i], playerId, week) then rounds[i].(locked := true) else rounds[i])
  }

  /** `toggleBuyIn`: the player with that id flips `buyInPaid`; nobody else changes. */
  function ToggledBuyIn(players: seq<Player>, playerId: string): (r: seq<Player>)
    ensures |r| == |players|
    ensures forall i :: 0 <= i < |r| && players[i].id != playerId ==> r[i] == players[i]
    ensures forall i :: 0 <= i < |r| && players[i].id == playerId ==>
      r[i].buyInPaid == !players[i].buyInPaid && r[i].(buyInPaid := players[i].buyInPaid) == players[i]
  {
    seq(|players|, i requires 0 <= i < |players| =>
      if players[i].id == playerId then players[i].(buyInPaid := !players[i].buyInPaid) else players[i])
  }

  /** `startWeek`: the week joins the active weeks unless it is already there. */
  function StartedWeeks(weeks: seq<int>, week: int): (r: seq<int>)
    ensures week in r
    ensures forall w :: w in r <==> w in weeks || w == week
    ensures NoDuplicates(weeks) ==> NoDuplicates(r)
    ensures weeks <= r
  {
    if week in weeks then weeks else weeks + [week]
  }

  // ---------------------------------------------------------------------------
  // Properties of the round actions

  /** Declaring twice is declaring once. */
  lemma DeclareIdempotent(rounds: seq<WeeklyRound>, playerId: string, week: int, now: string, later: string)
    ensures DeclaredRounds(DeclaredRounds(rounds, playerId, week, now), playerId, week, later)
        == DeclaredRounds(rounds, playerId, week, now)
  {
  }

  /** A submission, edit or lock that matches no round changes nothing. */
  lemma NoMatchNoChange(rounds: seq<WeeklyRound>, playerId: string, week: int,
                        holes: seq<HoleScore>, photoUrl: Option<string>, now: string)
    requires FindRound(rounds, playerId, week).None?
    ensures SubmittedRounds(rounds, playerId, week, holes, photoUrl, now) == rounds
    ensures EditedRounds(rounds, playerId, week, holes) == rounds
    ensures LockedRounds(rounds, playerId, week) == rounds
  {
  }

  /** Applying the same edit again changes nothing, the totals included. */
  lemma EditIdempotent(rounds: seq<WeeklyRound>, playerId: string, week: int, holes: seq<HoleScore>)
    ensures EditedRounds(EditedRounds(rounds, playerId, week, holes), playerId, week, holes)
        == EditedRounds(rounds, playerId, week, holes)
  {
  }

  /** Editing a round to the card it already holds leaves the whole list as it was. */
  lemma EditToSameCardNoChange(rounds: seq<WeeklyRound>, k: nat)
    requires RoundsInvariant(rounds) && k < |rounds|
    ensures EditedRounds(rounds, rounds[k].playerId, rounds[k].week, rounds[k].holeScores) == rounds
  {
    var edited := EditedRounds(rounds, rounds[k].playerId, rounds[k].week, rounds[k].holeScores);
    assert forall i :: 0 <= i < |rounds| ==> edited[i] == rounds[i];
  }

  lemma LockIdempotent(rounds: seq<WeeklyRound>, playerId: string, week: int)
    ensures LockedRounds(LockedRounds(rounds, playerId, week), playerId, week) == LockedRounds(rounds, playerId, week)
  {
  }

  /** Toggling a player's buy-in twice restores the roster. */
  lemma ToggleTwiceRestores(players: seq<Player>, playerId: string)
    ensures ToggledBuyIn(ToggledBuyIn(players, playerId), playerId) == players
  {
    var twice := ToggledBuyIn(ToggledBuyIn(players, playerId), playerId);
    forall i | 0 <= i < |players| ensures twice[i] == players[i] {
    }
  }

  lemma StartWeekIdempotent(weeks: seq<int>, week: int)
    ensures StartedWeeks(StartedWeeks(weeks, week), week) == StartedWeeks(weeks, week)
  {
  }

  /** Every round action keeps totals consistent, rounds declared and one round per (player, week). */
  lemma ActionsKeepRoundsInvariant(rounds: seq<WeeklyRound>, playerId: string, week: int,
                                   holes: seq<HoleScore>, photoUrl: Option<string>, now: string)
    requires RoundsInvariant(rounds)
    ensures RoundsInvariant(DeclaredRounds(rounds, playerId, week, now))
    ensures RoundsInvariant(SubmittedRounds(rounds, playerId, week, holes, photoUrl, now))
    ensures RoundsInvariant(EditedRounds(rounds, playerId, week, holes))
    ensures RoundsInvariant(LockedRounds(rounds, playerId, week))
  {
    var declared := DeclaredRounds(rounds, playerId, week, now);
    if |declared| == |rounds| + 1 {
      forall i, j | 0 <= i < j < |declared|
        ensures !Matches(declared[j], declared[i].playerId, declared[i].week)
      {
        if j == |rounds| {
          assert !Matches(rounds[i], playerId, week);
        }
      }
    }
  }

  /** Submitting and editing keep "locked only if submitted". */
  lemma SubmitEditKeepLockedOnlyIfSubmitted(rounds: seq<WeeklyRound>, playerId: string, week: int,
                                            holes: seq<HoleScore>, photoUrl: Option<string>, now: string)
    requires LockedOnlyIfSubmitted(rounds)
    ensures LockedOnlyIfSubmitted(DeclaredRounds(rounds, playerId, week, now))
    ensures LockedOnlyIfSubmitted(SubmittedRounds(rounds, playerId, week, holes, photoUrl, now))
    ensures LockedOnlyIfSubmitted(EditedRounds(rounds, playerId, week, holes))
  {
  }

  /** Locking keeps "locked only if submitted" when the round it locks is submitted. */
  lemma LockSubmittedKeepsInvariant(rounds: seq<WeeklyRound>, playerId: string, week: int)
    requires LockedOnlyIfSubmitted(rounds) && OnePerPlayerWeek(rounds)
    requires FindRound(rounds, playerId, week).Some? ==> FindRound(rounds, playerId, week).value.submitted
    ensures LockedOnlyIfSubmitted(LockedRounds(rounds, playerId, week))
  {
    var locked := LockedRounds(rounds, playerId, week);
    forall i | 0 <= i < |rounds| && Matches(rounds[i], playerId, week) ensures rounds[i].submitted {
      FindRoundUnique(rounds, i);
    }
  }

  /** The store itself does not check: locking a pending round breaks the invariant. */
  lemma LockPendingBreaksInvariant(rounds: seq<WeeklyRound>, playerId: string, week: int)
    requires FindRound(rounds, playerId, week).Some? && !FindRound(rounds, playerId, week).value.submitted
    ensures !LockedOnlyIfSubmitted(LockedRounds(rounds, playerId, week))
  {
    var r := FindRound(rounds, playerId, week).value;
    var k :| 0 <= k < |rounds| && rounds[k] == r;
    assert LockedRounds(rounds, playerId, week)[k].locked;
  }

  /**
   * The names every plain JavaScript object inherits from `Object.prototype`:
   * `users[name]` is truthy for them although no one registered them.
   */
  const INHERITED_KEYS: set<string> := {"constructor", "__proto__", "hasOwnProperty", "isPrototypeOf",
    "propertyIsEnumerable", "toLocaleString", "toString", "valueOf",
    "__defineGetter__", "__defineSetter__", "__lookupGetter__", "__lookupSetter__"}

  /** `users[username]` is truthy: a registered name or an inherited one. */
  predicate NameTaken(users: map<string, Credential>, username: string)
  {
    username in users || username in INHERITED_KEYS
  }

  /** The refusal test `register` makes before adding anyone. */
  predicate RegisterAccepts(users: map<string, Credential>, players: seq<Player>, username: string)
  {
    !NameTaken(users, username) && FindPlayer(players, username).None?
  }

  /** `register` refuses the inherited names whatever the table holds, and any registered name. */
  lemma RegisterRefusals(users: map<string, Credential>, players: seq<Player>, username: string)
    ensures username in INHERITED_KEYS ==> !RegisterAccepts(users, players, username)
    ensures username in users ==> !RegisterAccepts(users, players, username)
    ensures !RegisterAccepts(InitialUsers(), players, "toString")
    ensures RegisterAccepts(users, players, username) ==> username !in users && forall p :: p in players ==> p.username != username
  {
    assert "toString" in INHERITED_KEYS;
  }

  /** The credentials check `login` makes: the password matches and a player has the username. */
  predicate LoginAccepts(users: map<string, Credential>, players: seq<Player>, username: string, password: string)
  {
    username in users && users[username].password == password && FindPlayer(players, username).Some?
  }

  /** The player `register` adds. */
  function RegisteredPlayer(username: string, email: string, name: string): Player
  {
    Player(PlayerId(username), username, email, name, false, false)
  }

  /** After a successful registration the same username and password log in. */
  lemma RegisterThenLogin(users: map<string, Credential>, players: seq<Player>,
                          username: string, email: string, name: string, password: string)
    ensures LoginAccepts(users[username := Credential(password, email, name, PlayerId(username))],
                         players + [RegisteredPlayer(username, email, name)], username, password)
  {
    var ps := players + [RegisteredPlayer(username, email, name)];
    assert ps[|players|].username == username;
  }

  // ---------------------------------------------------------------------------
  // The store

  class League {
    var currentUser: Option<AuthUser>
    var players: seq<Player>
    var rounds: seq<WeeklyRound>
    var activeWeeks: seq<int>
    /** The module-level credentials table, collapsed into the store. */
    var users: map<string, Credential>
    /** The cloud writes issued so far, in order. */
    ghost var cloudWrites: seq<CloudWrite>

    ghost predicate Valid()
      reads this
    {
      && RoundsInvariant(rounds)
      && NoDuplicates(activeWeeks)
      && (forall i :: 0 <= i < |players| ==> players[i].username in users)
    }

    constructor ()
      ensures Valid()
      ensures currentUser == None && rounds == [] && activeWeeks == []
      ensures players == InitialPlayers() && users == InitialUsers() && cloudWrites == []
    {
      currentUser := None;
      players := InitialPlayers();
      rounds := [];
      activeWeeks := [];
      users := InitialUsers();
      cloudWrites := [];
      new;
      assert players[0] in InitialPlayers() && players[1] in InitialPlayers();
    }

    /** `login`: signs the player in when the password matches and the player exists. */
    method Login(username: string, password: string) returns (ok: bool)
      requires Valid()
      modifies this`currentUser
      ensures Valid()
      ensures ok <==> LoginAccepts(users, players, username, password)
      ensures ok ==> currentUser == Some(AuthOf(FindPlayer(players, username).value))
      ensures !ok ==> currentUser == old(currentUser)
    {
      ok := false;
      if username in users && users[username].password == password {
        var player := FindPlayer(players, username);
        if player.Some? {
          currentUser := Some(AuthOf(player.value));
          ok := true;
        }
      }
    }

    /** `register`: refuses a taken username; otherwise adds an unpaid player and signs them in. */
    method Register(username: string, email: string, name: string, password: string) returns (ok: bool)
      requires Valid()
      modifies this
      ensures Valid()
      ensures ok <==> RegisterAccepts(old(users), old(players), username)
      ensures !ok ==> unchanged(this)
      ensures ok ==>
        && players == old(players) + [RegisteredPlayer(username, email, name)]
        && users == old(users)[username := Credential(password, email, name, PlayerId(username))]
        && currentUser == Some(AuthUser(PlayerId(username), username, email, false))
      ensures rounds == old(rounds) && activeWeeks == old(activeWeeks) && cloudWrites == old(cloudWrites)
    {
      if NameTaken(users, username) || FindPlayer(players, username).Some? {
        return false;
      }
      var newId := PlayerId(username);
      users := users[username := Credential(password, email, name, newId)];
      players := players + [RegisteredPlayer(username, email, name)];
      currentUser := Some(AuthUser(newId, username, email, false));
      ok := true;
    }

    method Logout()
      requires Valid()
      modifies this`currentUser
      ensures Valid() && currentUser == None
    {
      currentUser := None;
    }

    /** `addPlayer`: records credentials and appends the player without checking for duplicates. */
    method AddPlayer(username: string, email: string, name: string, password: string, isCommissioner: bool)
      requires Valid()
      modifies this
      ensures Valid()
      ensures users == old(users)[username := Credential(password, email, name, PlayerId(username))]
      ensures players == old(players) + [Player(PlayerId(username), username, email, name, isCommissioner, false)]
      ensures cloudWrites == old(cloudWrites) + [PlayerWrite(players[|players| - 1])]
      ensures currentUser == old(currentUser) && rounds == old(rounds) && activeWeeks == old(activeWeeks)
    {
      var newId := PlayerId(username);
      users := users[username := Credential(password, email, name, newId)];
      var player := Player(newId, username, email, name, isCommissioner, false);
      players := players + [player];
      cloudWrites := cloudWrites + [PlayerWrite(player)];
    }

    method ToggleBuyIn(playerId: string)
      requires Valid()
      modifies this`players
      ensures Valid()
      ensures players == ToggledBuyIn(old(players), playerId)
    {
      players := ToggledBuyIn(players, playerId);
    }

    /** `declareRound`, with the append the optimistic update describes. */
    method DeclareRound(playerId: string, week: int, now: string)
      requires Valid()
      modifies this`rounds, this`cloudWrites
      ensures Valid()
      ensures rounds == DeclaredRounds(old(rounds), playerId, week, now)
      ensures cloudWrites == old(cloudWrites) +
        if |rounds| == |old(rounds)| then [] else [RoundWrite(NewRound(playerId, week, now))]
    {
      ActionsKeepRoundsInvariant(rounds, playerId, week, [], None, now);
      var existing := FindRound(rounds, playerId, week);
      if existing.None? {
        var newRound := NewRound(playerId, week, now);
        rounds := rounds + [newRound];
        cloudWrites := cloudWrites + [RoundWrite(newRound)];
      }
    }

    /** `submitRound`: no check of declared, already submitted or stroke ranges. */
    method SubmitRound(playerId: string, week: int, holes: seq<HoleScore>, photoUrl: Option<string>, now: string)
      requires Valid()
      modifies this`rounds, this`cloudWrites
      ensures Valid()
      ensures rounds == SubmittedRounds(old(rounds), playerId, week, holes, photoUrl, now)
      ensures cloudWrites == old(cloudWrites) +
        match FindRound(rounds, playerId, week)
        case None => []
        case Some(r) => [RoundWrite(r)]
    {
      ActionsKeepRoundsInvariant(rounds, playerId, week, holes, photoUrl, now);
      rounds := SubmittedRounds(rounds, playerId, week, holes, photoUrl, now);
      var updated := FindRound(rounds, playerId, week);
      if updated.Some? {
        cloudWrites := cloudWrites + [RoundWrite(updated.value)];
      }
    }

    method UpdateRound(playerId: string, week: int, holes: seq<HoleScore>)
      requires Valid()
      modifies this`rounds
      ensures Valid()
      ensures rounds == EditedRounds(old(rounds), playerId, week, holes)
    {
      ActionsKeepRoundsInvariant(rounds, playerId, week, holes, None, "");
      rounds := EditedRounds(rounds, playerId, week, holes);
    }

    /** `editScore`: the same rewrite as `updateRound`; no cloud write. */
    method EditScore(playerId: string, week: int, holes: seq<HoleScore>)
      requires Valid()
      modifies this`rounds
      ensures Valid()
      ensures rounds == EditedRounds(old(rounds), playerId, week, holes)
    {
      ActionsKeepRoundsInvariant(rounds, playerId, week, holes, None, "");
      rounds := EditedRounds(rounds, playerId, week, holes);
    }

    method LockScore(playerId: string, week: int)
      requires Valid()
      modifies this`rounds
      ensures Valid()
      ensures rounds == LockedRounds(old(rounds), playerId, week)
    {
      ActionsKeepRoundsInvariant(rounds, playerId, week, [], None, "");
      rounds := LockedRounds(rounds, playerId, week);
    }

    method StartWeek(week: int)
      requires Valid()
      modifies this`activeWeeks, this`cloudWrites
      ensures Valid()
      ensures activeWeeks == StartedWeeks(old(activeWeeks), week)
      ensures IsWeekActive(week)
      ensures forall w :: w != week ==> IsWeekActive(w) == old(IsWeekActive(w))
      ensures cloudWrites == old(cloudWrites) + if week in old(activeWeeks) then [] else [WeekWrite(week, true)]
    {
      if week !in activeWeeks {
        activeWeeks := activeWeeks + [week];
        cloudWrites := cloudWrites + [WeekWrite(week, true)];
      }
    }

    /** `isWeekActive` */
    predicate IsWeekActive(week: int)
      reads this
    {
      week in activeWeeks
    }
  }

  /** The signed-in user record built from a player. */
  function AuthOf(p: Player): AuthUser
  {
    AuthUser(p.id, p.username, p.email, p.isCommissioner)
  }
}
