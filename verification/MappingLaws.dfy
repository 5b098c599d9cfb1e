/** What recording an order id comes to, for whatever token is minted. */
module MappingLaws {
  import opened Wrappers
  import opened Text
  import opened EventLog
  import opened OrderIdMapping

  /** The key of a token: the adapter, the account with its length in front, the token. */
  function StoredUnder(account: string, token: string): string {
    "hyperliquid_adapter:" + ((Decimal(|account|) + ":" + account) + (":" + token))
  }

  /**
   Recording an id.  A known one gets its token and nothing is written.  For a new one the
   minted token is stored once, under its key, before anything is handed out, and both maps
   take it; an empty id is handed its token but not kept, an empty token is an error.
   Where the key is taken already the id is refused, unless the event there is its own.
   */
  lemma RecordAnswers(w: World, cid: string, mint: Mint)
    requires Good(w)
    ensures var (w', out) := Record(w, cid, mint);
            var token := mint(cid);
            var key := StoredUnder(w.account, token);
      if cid in w.maps.tokenOf then w' == w && out == Token(w.maps.tokenOf[cid])
      else if HasKey(w.log, key) then
        var p := Find(w.log, key).value.payload;
        w' == w && out == if p != Mapped(w.account, cid, token) then Collision else if token == "" then NoToken else Token(token)
      else
        && w'.account == w.account && w'.log == w.log + [Event(NextId(w.log), Some(key), Mapped(w.account, cid, token))]
        && (token == "" ==> out == NoToken && w'.maps == w.maps)
        && (token != "" ==> out == Token(token))
        && (token != "" && cid == "" ==> w'.maps == w.maps)
        && (token != "" && cid != "" ==>
             w'.maps.tokenOf == w.maps.tokenOf[cid := token] && w'.maps.cidOf == w.maps.cidOf[token := cid] && token !in w.maps.cidOf)
  {
    var token := mint(cid);
    var key := StoredUnder(w.account, token);
    assert key == Key(w.account, token);
    if cid !in w.maps.tokenOf {
      if HasKey(w.log, key) {
        StoredTokenIsKeyed(w, cid, token);
        if cid != "" && token != "" && IsOwn(w.account, Stored(w.log, key, Mapped(w.account, cid, token)).payload)
           && Stored(w.log, key, Mapped(w.account, cid, token)).payload.cid == cid {
          StoredIsNew(w, cid, token);
          assert false;
        }
      } else {
        NewTokenIsFree(w, token);
      }
    }
  }
}
