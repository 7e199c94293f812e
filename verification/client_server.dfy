/** Properties of the client and the server together: what the client sends
    is what the server reads, and what the server answers is what the client
    keeps or shows. */
module ClientServer {
  import opened Common
  import opened Seqs
  import opened Server
  import opened App

  /** The `category` query parameter the server reads from a GET of url on
      the resources route, or None when the URL has no such parameter. */
  function RequestedCategory(base: string, url: string): (c: Option<string>)
    ensures c.Some? ==> url == base + ResourcesPath + CategoryQuery + c.value
  {
    var prefix := base + ResourcesPath + CategoryQuery;
    if |prefix| <= |url| && url[..|prefix|] == prefix then Some(url[|prefix|..]) else None
  }

  /** The parsed body of a chat handler's reply: a 500 error body carries
      neither `response` nor `session_id`, yet `fetch` resolves with it. */
  function ReplyOf(r: Reply<ChatResponse>): (reply: ChatReply)
    ensures r.Ok? ==> reply == ChatReply(Some(r.value.response), Some(r.value.sessionId))
    ensures r.ServerError? ==> reply.response.None? && reply.sessionId.None?
  {
    match r
    case Ok(resp) => ChatReply(Some(resp.response), Some(resp.sessionId))
    case ServerError(_) => ChatReply(None, None)
  }

  /** A category that reaches the server as written when it ends the URL:
      `&` would end the parameter, `#` would start the fragment, the server
      decodes `+` and `%`, the URL parser removes tabs and newlines
      everywhere and drops trailing spaces and control characters. */
  predicate QuerySafe(value: string) {
    && (forall k :: 0 <= k < |value| ==> value[k] !in "&#+%\t\n\r")
    && (value == [] || value[|value| - 1] > ' ')
  }

  /** The server reads back exactly the category the client chose to filter
      by, and no category when it did not filter. */
  lemma UrlRoundTrip(base: string, category: Option<string>)
    requires category.Some? ==> QuerySafe(category.value)
    ensures RequestedCategory(base, ResourcesUrl(base, category)) ==
            if FiltersBy(category) then category else None
  {
    var url := ResourcesUrl(base, category);
    var prefix := base + ResourcesPath + CategoryQuery;
    if FiltersBy(category) {
      assert url == prefix + category.value;
      assert url[..|prefix|] == prefix;
    } else {
      assert |url| < |prefix|;
    }
  }

  /** Choosing the "all" button lists every stored resource. */
  lemma AllListsEverything(base: string, store: seq<ResourceRecord>)
    ensures multiset(ResourcesIn(store, RequestedCategory(base, ResourcesUrl(base, Some(AllCategories))))) == multiset(store)
  {
    UrlRoundTrip(base, Some(AllCategories));
    ResourcesOfAll(store, None);
  }

  /** Choosing any other non-empty category lists exactly the stored
      resources of that category. */
  lemma CategoryListsItsResources(base: string, category: string, store: seq<ResourceRecord>)
    requires category != "" && category != AllCategories && QuerySafe(category)
    ensures forall x :: x in ResourcesIn(store, RequestedCategory(base, ResourcesUrl(base, Some(category)))) <==>
      x in store && x.category == category
  {
    UrlRoundTrip(base, Some(category));
    ResourcesOfCategory(store, category);
  }

  /** After any successful exchange the client holds the id the server used,
      and a client that already held one sent it and got it back. */
  lemma SessionAgreement(held: Option<string>, message: string, freshId: string,
                         answer: string, recordId: string, now: int)
    requires freshId != ""
    ensures var sid := SessionFor(held, freshId);
      && AdoptSession(held, ReplyOf(Ok(ChatResponse(answer, sid))).sessionId) == Some(sid)
      && Truthy(Some(sid))
      && (Truthy(held) ==> sid == held.value)
  {
  }

  /** A chat request that fails on the server shows an empty ai turn and
      leaves an unbound client unbound. */
  lemma ServerErrorKeepsSessionUnbound(held: Option<string>, detail: string)
    requires !Truthy(held)
    ensures !Truthy(AdoptSession(held, ReplyOf(ServerError(detail)).sessionId))
    ensures ReplyOf(ServerError(detail)).response.GetOr("") == ""
  {
  }

  /** w lists entries of the store newest first, and no entry of the store
      left out of w is newer than one in w. */
  predicate NewestOf(w: seq<MoodRecord>, store: multiset<MoodRecord>) {
    && (forall i, j :: 0 <= i < j < |w| ==> w[i].timestamp >= w[j].timestamp)
    && multiset(w) <= store
    && (forall m, k :: m in store - multiset(w) && 0 <= k < |w| ==> m.timestamp <= w[k].timestamp)
  }

  /** A prefix of a newest-first read that kept the newest of a store keeps
      the newest of that store too. */
  lemma PrefixKeepsNewest(store: multiset<MoodRecord>, h: seq<MoodRecord>, w: seq<MoodRecord>)
    requires |w| <= |h| && w == h[..|w|] && multiset(h) <= store
    requires forall i, j :: 0 <= i < j < |h| ==> h[i].timestamp >= h[j].timestamp
    requires forall m, k :: m in store - multiset(h) && 0 <= k < |h| ==> m.timestamp <= h[k].timestamp
    ensures NewestOf(w, store)
  {
    var n := |w|;
    PrefixSplit(h, n);
    forall m, k | m in store - multiset(w) && 0 <= k < n
      ensures m.timestamp <= w[k].timestamp
    {
      if m !in store - multiset(h) {
        assert m in multiset(h[n..]);
        var j :| 0 <= j < |h| - n && h[n..][j] == m;
        assert h[n + j] == m;
      }
    }
  }

  /** The mood panel shows the ten newest entries: the first ten of the
      default 30-entry history are as many as there are up to ten, newest
      first, drawn from the store, and no entry left out is newer than one
      shown. Which of several entries with equal timestamps is shown stays
      open, as in MongoDB. */
  lemma RecentWindowIsTenNewest(entries: seq<MoodRecord>)
    ensures var w := RecentWindow(MoodHistory(entries, DefaultMoodHistoryLimit));
      && |w| == (if |entries| < HistoryWindow then |entries| else HistoryWindow)
      && NewestOf(w, multiset(entries))
  {
    var h := MoodHistory(entries, DefaultMoodHistoryLimit);
    MoodHistoryKeepsNewest(entries, DefaultMoodHistoryLimit);
    PrefixKeepsNewest(multiset(entries), h, RecentWindow(h));
  }

  /** The mood form's body is stored as it was entered: level and notes
      unchanged, no activities. */
  lemma MoodFormStored(app: AppState, id: string, now: int)
    requires app.Valid()
    ensures var r := NewMoodRecord(app.MoodRequest(), id, now);
      && r == MoodRecord(id, app.moodLevel, app.moodNotes, [], now)
      && 1 <= r.moodLevel <= 10
  {
  }
}
