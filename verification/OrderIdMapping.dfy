/**
 Engine order ids and venue tokens: a two-way map kept in the shared log, sound for any way
 of minting tokens, colliding or changing ones included.
 */
module OrderIdMapping {
  import opened Wrappers
  import opened Text
  import opened EventLog

  datatype Payload = Mapped(account: string, cid: string, token: string) | Foreign(tag: string)

  type Entry = Event<string, Payload>
  type Log = seq<Entry>

  type Mint = string -> string

  function Key(account: string, token: string): string {
    "hyperliquid_adapter:" + (Sized(account) + (":" + token))
  }

  /** The account is length-prefixed and the token comes last, so the key determines both. */
  lemma KeyInjective(a: string, s: string, b: string, t: string)
    requires Key(a, s) == Key(b, t)
    ensures a == b && s == t
  {
    var front := "hyperliquid_adapter:";
    assert Key(a, s)[|front|..] == Sized(a) + (":" + s) && Key(b, t)[|front|..] == Sized(b) + (":" + t);
    SizedSplits(a, ":" + s, b, ":" + t);
    assert (":" + s)[1..] == s && (":" + t)[1..] == t;
  }

  // ---- the two maps ----

  datatype Maps = Maps(cidOf: map<string, string>, tokenOf: map<string, string>)

  const Empty: Maps := Maps(map[], map[])

  predicate IsOwn(account: string, p: Payload) {
    p.Mapped? && p.account == account
  }

  /** An empty id or token is passed over. */
  function Apply(m: Maps, cid: string, token: string): Maps {
    if cid == "" || token == "" then m else Maps(m.cidOf[token := cid], m.tokenOf[cid := token])
  }

  function Rebuild(account: string, log: Log): Maps {
    if log == [] then Empty
    else
      var before, p := Rebuild(account, log[..|log| - 1]), log[|log| - 1].payload;
      if IsOwn(account, p) then Apply(before, p.cid, p.token) else before
  }

  // ---- recording ----

  datatype World = World(account: string, maps: Maps, log: Log)
  datatype Outcome = Token(token: string) | Collision | NoToken | NoStore

  /** The event an append under the key hands back: the stored one, or the new one. */
  function Stored(log: Log, key: string, p: Payload): Entry {
    match Find(log, key)
    case Some(e) => e
    case None => Event(NextId(log), Some(key), p)
  }

  function Record(w: World, cid: string, mint: Mint): (World, Outcome) {
    if cid in w.maps.tokenOf then (w, Token(w.maps.tokenOf[cid]))
    else
      var key, p := Key(w.account, mint(cid)), Mapped(w.account, cid, mint(cid));
      var log, e := Appended(w.log, Some(key), p), Stored(w.log, key, p);
      if !IsOwn(w.account, e.payload) || e.payload.cid != cid then (w.(log := log), Collision)
      else if e.payload.token == "" then (w.(log := log), NoToken)
      else (World(w.account, Apply(w.maps, cid, e.payload.token), log), Token(e.payload.token))
  }

  // ---- histories ----

  /** Own events carry the key of their token, and a recorded id is not recorded again. */
  ghost predicate Proper(account: string, log: Log) {
    log == [] ||
    var front, e := log[..|log| - 1], log[|log| - 1];
    && Proper(account, front)
    && (IsOwn(account, e.payload) ==>
          e.key == Some(Key(account, e.payload.token)) && e.payload.cid !in Rebuild(account, front).tokenOf)
  }

  /** Each map undoes the other. */
  predicate Inverse(m: Maps) {
    && (forall t :: t in m.cidOf ==> m.cidOf[t] in m.tokenOf && m.tokenOf[m.cidOf[t]] == t)
    && (forall cid :: cid in m.tokenOf ==> m.tokenOf[cid] in m.cidOf && m.cidOf[m.tokenOf[cid]] == cid)
  }

  lemma {:induction false} TokensAreKeyed(account: string, log: Log, token: string)
    requires Proper(account, log) && token in Rebuild(account, log).cidOf
    ensures HasKey(log, Key(account, token))
  {
    var front := log[..|log| - 1];
    if token in Rebuild(account, front).cidOf {
      TokensAreKeyed(account, front, token);
    }
  }

  /** On every history the maps rebuilt from the log are inverse to each other. */
  lemma {:induction false} RebuiltIsInverse(account: string, log: Log)
    requires Ordered(log) && Proper(account, log)
    ensures Inverse(Rebuild(account, log))
  {
    if log != [] {
      var front, e := log[..|log| - 1], log[|log| - 1];
      RebuiltIsInverse(account, front);
      if IsOwn(account, e.payload) && e.payload.token in Rebuild(account, front).cidOf {
        TokensAreKeyed(account, front, e.payload.token);
      }
    }
  }

  ghost predicate Good(w: World) {
    Ordered(w.log) && Proper(w.account, w.log) && w.maps == Rebuild(w.account, w.log)
  }

  /** Nothing that was resolved is forgotten or resolved differently. */
  predicate Remembers(m: Maps, m': Maps) {
    && (forall t :: t in m.cidOf ==> t in m'.cidOf && m'.cidOf[t] == m.cidOf[t])
    && (forall cid :: cid in m.tokenOf ==> cid in m'.tokenOf && m'.tokenOf[cid] == m.tokenOf[cid])
  }

  ghost predicate GoodFrom(w0: World, w: World) {
    Good(w) && w.account == w0.account && Remembers(w0.maps, w.maps)
  }

  /** The event handed back for an id that is not in the maps is a new one, or it is not applied. */
  lemma StoredIsNew(w: World, cid: string, token: string)
    requires Good(w) && cid !in w.maps.tokenOf && cid != "" && token != ""
    requires var e := Stored(w.log, Key(w.account, token), Mapped(w.account, cid, token));
             IsOwn(w.account, e.payload) && e.payload.cid == cid
    ensures !HasKey(w.log, Key(w.account, token))
  {
    if HasKey(w.log, Key(w.account, token)) {
      var e := Find(w.log, Key(w.account, token)).value;
      var i :| 0 <= i < |w.log| && w.log[i] == e;
      OwnTokenOfKey(w.account, w.log, i);
      KeyInjective(w.account, e.payload.token, w.account, token);
      OwnIsInMaps(w.account, w.log, i);
      assert false;
    }
  }

  lemma {:induction false} OwnTokenOfKey(account: string, log: Log, i: nat)
    requires Proper(account, log) && i < |log| && IsOwn(account, log[i].payload)
    ensures log[i].key == Some(Key(account, log[i].payload.token))
  {
    if i < |log| - 1 {
      assert log[..|log| - 1][i] == log[i];
      OwnTokenOfKey(account, log[..|log| - 1], i);
    }
  }

  lemma {:induction false} OwnIsInMaps(account: string, log: Log, i: nat)
    requires i < |log| && IsOwn(account, log[i].payload) && log[i].payload.cid != "" && log[i].payload.token != ""
    ensures log[i].payload.cid in Rebuild(account, log).tokenOf
  {
    if i < |log| - 1 {
      assert log[..|log| - 1][i] == log[i];
      OwnIsInMaps(account, log[..|log| - 1], i);
    }
  }

  /** A new event enters a token the maps do not have yet. */
  lemma NewTokenIsFree(w: World, token: string)
    requires Good(w) && !HasKey(w.log, Key(w.account, token))
    ensures token !in w.maps.cidOf
  {
    if token in w.maps.cidOf {
      TokensAreKeyed(w.account, w.log, token);
    }
  }

  lemma RecordKeeps(w: World, cid: string, mint: Mint)
    requires Good(w)
    ensures GoodFrom(w, Record(w, cid, mint).0)
  {
    if cid !in w.maps.tokenOf {
      var token := mint(cid);
      var key, p := Key(w.account, token), Mapped(w.account, cid, token);
      if HasKey(w.log, key) {
        if cid != "" && token != "" && IsOwn(w.account, Stored(w.log, key, p).payload) && Stored(w.log, key, p).payload.cid == cid {
          StoredIsNew(w, cid, token);
        }
        StoredTokenIsKeyed(w, cid, token);
      } else {
        NewRecordKeeps(w, cid, token);
      }
    }
  }

  /** A new event for an id that is not in the maps. */
  lemma NewRecordKeeps(w: World, cid: string, token: string)
    requires Good(w) && cid !in w.maps.tokenOf && !HasKey(w.log, Key(w.account, token))
    ensures var log := Appended(w.log, Some(Key(w.account, token)), Mapped(w.account, cid, token));
            GoodFrom(w, World(w.account, Apply(w.maps, cid, token), log))
  {
    hide Key;
    var key, p := Key(w.account, token), Mapped(w.account, cid, token);
    AppendedKeepsOrder(w.log, Some(key), p);
    assert Appended(w.log, Some(key), p)[..|w.log|] == w.log;
    NewTokenIsFree(w, token);
  }

  /** An own event found under a token's key carries that token. */
  lemma StoredTokenIsKeyed(w: World, cid: string, token: string)
    requires Good(w) && HasKey(w.log, Key(w.account, token))
    ensures var e := Stored(w.log, Key(w.account, token), Mapped(w.account, cid, token));
            IsOwn(w.account, e.payload) ==> e.payload.token == token
  {
    var e := Find(w.log, Key(w.account, token)).value;
    var i :| 0 <= i < |w.log| && w.log[i] == e;
    if IsOwn(w.account, e.payload) {
      OwnTokenOfKey(w.account, w.log, i);
      KeyInjective(w.account, e.payload.token, w.account, token);
    }
  }

  // ---- runs ----

  datatype Action =
    | Recorded(cid: string, mint: Mint)
    | Restart
    | OtherWriter(key: Option<string>, payload: Payload)

  function Act(w: World, a: Action): World {
    match a
    case Recorded(cid, mint) => Record(w, cid, mint).0
    case Restart => w.(maps := Rebuild(w.account, w.log))
    case OtherWriter(key, payload) => if IsOwn(w.account, payload) then w else w.(log := Appended(w.log, key, payload))
  }

  function Run(w: World, actions: seq<Action>): World {
    if actions == [] then w
    else Act(Run(w, actions[..|actions| - 1]), actions[|actions| - 1])
  }

  lemma ActKeeps(w: World, a: Action)
    requires Good(w)
    ensures GoodFrom(w, Act(w, a))
  {
    match a
    case Recorded(cid, mint) => RecordKeeps(w, cid, mint);
    case Restart =>
    case OtherWriter(key, payload) =>
      AppendedKeepsOrder(w.log, key, payload);
      if Appended(w.log, key, payload) != w.log {
        assert Appended(w.log, key, payload)[..|w.log|] == w.log;
      }
  }

  /**
   On every run, whatever tokens are minted, whoever else writes under whatever keys, and
   however often the process restarts: the maps are what the log rebuilds, each is the
   inverse of the other, and nothing once resolved is lost or changed.
   */
  lemma {:induction false} RunIsInverse(w: World, actions: seq<Action>)
    requires Good(w)
    ensures var w' := Run(w, actions);
            GoodFrom(w, w') && w'.maps == Rebuild(w'.account, w'.log) && Inverse(w'.maps)
  {
    if actions != [] {
      RunIsInverse(w, actions[..|actions| - 1]);
      ActKeeps(Run(w, actions[..|actions| - 1]), actions[|actions| - 1]);
    }
    RebuiltIsInverse(w.account, Run(w, actions).log);
  }

  lemma StartIsGood(account: string)
    ensures Good(World(account, Empty, []))
  {
  }

  /** The same from the first process on. */
  lemma RunFromNothing(account: string, actions: seq<Action>)
    ensures var w := Run(World(account, Empty, []), actions); Good(w) && Inverse(w.maps) && w.maps == Rebuild(account, w.log)
  {
    StartIsGood(account);
    RunIsInverse(World(account, Empty, []), actions);
  }

  /** A token that is handed out resolves back to its id, if and only if the id is not empty. */
  lemma HandedOutResolves(w: World, cid: string, mint: Mint)
    requires Good(w) && Record(w, cid, mint).1.Token?
    ensures var (w', out) := Record(w, cid, mint);
      && (out.token in w'.maps.cidOf && w'.maps.cidOf[out.token] == cid <==> cid != "")
      && (cid != "" ==> cid in w'.maps.tokenOf && w'.maps.tokenOf[cid] == out.token)
  {
    RebuiltIsInverse(w.account, w.log);
    NoEmptyIds(w.account, w.log);
  }

  lemma {:induction false} NoEmptyIds(account: string, log: Log)
    ensures var m := Rebuild(account, log); "" !in m.tokenOf && forall t :: t in m.cidOf ==> m.cidOf[t] != ""
  {
    if log != [] {
      NoEmptyIds(account, log[..|log| - 1]);
    }
  }

  /** An id whose token belongs to another id is refused, and nothing changes. */
  lemma CollidingIdIsRefused(w: World, cid: string, mint: Mint)
    requires Good(w) && cid !in w.maps.tokenOf && mint(cid) in w.maps.cidOf
    ensures Record(w, cid, mint) == (w, Collision)
  {
    var key := Key(w.account, mint(cid));
    TokensAreKeyed(w.account, w.log, mint(cid));
    StoredTokenIsKeyed(w, cid, mint(cid));
    NoEmptyIds(w.account, w.log);
    RebuiltIsInverse(w.account, w.log);
    if Record(w, cid, mint).1 != Collision {
      var e := Find(w.log, key).value;
      var i :| 0 <= i < |w.log| && w.log[i] == e;
      TokenOwner(w.account, w.log, i);
      assert false;
    }
  }

  /** Whoever recorded a token still owns it. */
  lemma {:induction false} TokenOwner(account: string, log: Log, i: nat)
    requires Ordered(log) && Proper(account, log) && i < |log| && IsOwn(account, log[i].payload)
    requires log[i].payload.token in Rebuild(account, log).cidOf
    ensures Rebuild(account, log).cidOf[log[i].payload.token] == log[i].payload.cid
    ensures log[i].payload.cid in Rebuild(account, log).tokenOf
  {
    var front, e := log[..|log| - 1], log[|log| - 1];
    var token := log[i].payload.token;
    if i < |log| - 1 {
      assert front[i] == log[i];
      OwnTokenOfKey(account, front, i);
      HasKeyAt(front, Key(account, token), i);
      TokenOwner(account, front, i);
    } else if token in Rebuild(account, front).cidOf {
      TokensAreKeyed(account, front, token);
    }
  }

  /** Recording again gives the same token and appends nothing. */
  lemma RecordingAgain(w: World, cid: string, mint: Mint, again: Mint)
    requires Good(w) && Record(w, cid, mint).1.Token? && cid != ""
    ensures Record(Record(w, cid, mint).0, cid, again) == Record(w, cid, mint)
  {
    HandedOutResolves(w, cid, mint);
  }

  // ---- the object ----

  class OrderIdMapping {
    const account: string
    const mint: Mint
    const store: SharedLog?<string, Payload>
    var cidOf: map<string, string>
    var tokenOf: map<string, string>

    ghost predicate Valid()
      reads this, store
    {
      if store == null then Maps(cidOf, tokenOf) == Empty else Good(State())
    }

    ghost function State(): World
      requires store != null
      reads this, store
    {
      World(account, Maps(cidOf, tokenOf), store.events)
    }

    /** Rebuilds the maps from the log; without a store they stay empty. */
    constructor (account: string, mint: Mint, store: SharedLog?<string, Payload>)
      requires store != null ==> Ordered(store.events) && Proper(account, store.events)
      ensures Valid() && this.account == account && this.mint == mint && this.store == store
      ensures store != null ==> Maps(cidOf, tokenOf) == Rebuild(account, store.events)
    {
      this.account, this.mint, this.store := account, mint, store;
      cidOf, tokenOf := map[], map[];
      new;
      if store != null {
        var i := 0;
        while i < |store.events|
          invariant 0 <= i <= |store.events| && this.account == account
          invariant Maps(cidOf, tokenOf) == Rebuild(account, store.events[..i])
          modifies this`cidOf, this`tokenOf
        {
          var p := store.events[i].payload;
          assert store.events[..i + 1][..i] == store.events[..i];
          if IsOwn(account, p) {
            ApplyMapping(p.cid, p.token);
          }
          i := i + 1;
        }
        assert store.events[..i] == store.events;
      }
    }

    method ApplyMapping(cid: string, token: string)
      modifies this`cidOf, this`tokenOf
      ensures Maps(cidOf, tokenOf) == Apply(old(Maps(cidOf, tokenOf)), cid, token)
    {
      if cid != "" && token != "" {
        cidOf := cidOf[token := cid];
        tokenOf := tokenOf[cid := token];
      }
    }

    /** Appends before it returns; the stored token wins, and a stranger's event is refused. */
    method RecordOrder(cid: string) returns (out: Outcome)
      requires Valid()
      modifies this`cidOf, this`tokenOf, store
      ensures Valid() && (store == null ==> out == NoStore)
      ensures store != null ==> (State(), out) == Record(old(State()), cid, mint)
    {
      if store == null { return NoStore; }
      RecordKeeps(State(), cid, mint);
      if cid in tokenOf { return Token(tokenOf[cid]); }
      var token := mint(cid);
      ghost var before := store.events;
      var e := store.Append(Some(Key(account, token)), Mapped(account, cid, token));
      StoredIsHandedBack(before, Key(account, token), Mapped(account, cid, token), e, store.events);
      if !IsOwn(account, e.payload) || e.payload.cid != cid { return Collision; }
      if e.payload.token == "" { return NoToken; }
      ApplyMapping(cid, e.payload.token);
      return Token(e.payload.token);
    }

    method Resolve(token: string) returns (cid: Option<string>)
      requires Valid()
      ensures cid.Some? <==> token in cidOf
      ensures cid.Some? ==> cid.value in tokenOf && tokenOf[cid.value] == token
    {
      if store != null { RebuiltIsInverse(account, store.events); }
      return if token in cidOf then Some(cidOf[token]) else None;
    }

    method KnownToken(cid: string) returns (token: Option<string>)
      requires Valid()
      ensures token.Some? <==> cid in tokenOf
      ensures token.Some? ==> token.value in cidOf && cidOf[token.value] == cid
    {
      if store != null { RebuiltIsInverse(account, store.events); }
      return if cid in tokenOf then Some(tokenOf[cid]) else None;
    }
  }

  lemma StoredIsHandedBack(before: Log, key: string, p: Payload, e: Entry, after: Log)
    requires after == Appended(before, Some(key), p)
    requires after == before ==> Find(before, key) == Some(e)
    requires after != before ==> e == Event(NextId(before), Some(key), p)
    ensures e == Stored(before, key, p)
  {
  }
}
