/** The behaviour of the FastAPI handlers in backend/server.py, with each
    MongoDB collection held as an in-memory sequence of documents in insertion
    order. Timestamps (`datetime.now(timezone.utc)`) are integers and fresh
    `uuid4` strings are parameters; the LLM reply is an opaque input. */
module Server {
  import opened Common
  import opened Seqs

  // ---- Request and response bodies (the pydantic models) ----

  /** Body of POST /api/chat. */
  datatype ChatMessage = ChatMessage(message: string, sessionId: Option<string>)

  /** Body returned by POST /api/chat. */
  datatype ChatResponse = ChatResponse(response: string, sessionId: string)

  /** Body of POST /api/mood; the 1-10 scale is only a comment in the source. */
  datatype MoodEntry = MoodEntry(moodLevel: int, notes: Option<string>, activities: Option<seq<string>>)

  /** Body of POST /api/resources. */
  datatype Resource = Resource(title: string, category: string, description: string,
                               content: string, url: Option<string>)

  // ---- Stored documents (the `_id` key is projected away by every read) ----

  datatype Conversation = Conversation(id: string, sessionId: string, userMessage: string,
                                       aiResponse: string, timestamp: int)

  datatype MoodRecord = MoodRecord(id: string, moodLevel: int, notes: string,
                                   activities: seq<string>, timestamp: int)

  datatype ResourceRecord = ResourceRecord(id: string, title: string, category: string,
                                           description: string, content: string, url: string,
                                           timestamp: int)

  /** What the LLM call does: answer with a text, or raise. */
  datatype LlmOutcome = Answered(text: string) | Raised(error: string)

  /** A handler's outcome: its response body, or the HTTPException(500) it raises. */
  datatype Reply<T> = Ok(value: T) | ServerError(detail: string)

  const ChatErrorPrefix := "Chat error: "
  const DefaultMoodHistoryLimit := 30

  // ---- Record normalisation ----

  /** `chat_request.session_id or str(uuid.uuid4())`. */
  function SessionFor(given: Option<string>, freshId: string): (sid: string)
    ensures Truthy(given) ==> sid == given.value
    ensures !Truthy(given) ==> sid == freshId
    ensures freshId != "" ==> sid != ""
  {
    if Truthy(given) then given.value else freshId
  }

  /** The document `log_mood` stores and returns: absent notes and activities
      become `""` and `[]`, and the level is copied without a range check. */
  function NewMoodRecord(entry: MoodEntry, id: string, now: int): (r: MoodRecord)
    ensures r.moodLevel == entry.moodLevel
    ensures r.notes == entry.notes.GetOr("")
    ensures r.activities == entry.activities.GetOr([])
    ensures r.id == id && r.timestamp == now
  {
    MoodRecord(id, entry.moodLevel,
               if Truthy(entry.notes) then entry.notes.value else "",
               if entry.activities.Some? && entry.activities.value != [] then entry.activities.value else [],
               now)
  }

  /** The document `create_resource` stores and returns: the four text fields
      are copied and an absent url becomes `""`. */
  function NewResourceRecord(res: Resource, id: string, now: int): (r: ResourceRecord)
    ensures r.title == res.title && r.category == res.category
    ensures r.description == res.description && r.content == res.content
    ensures r.url == res.url.GetOr("")
    ensures r.id == id && r.timestamp == now
  {
    ResourceRecord(id, res.title, res.category, res.description, res.content,
                   if Truthy(res.url) then res.url.value else "", now)
  }

  // ---- Sort keys ----

  function Oldest(c: Conversation): int { c.timestamp }
  function Newest(m: MoodRecord): int { -m.timestamp }
  function NewestResource(r: ResourceRecord): int { -r.timestamp }

  // ---- Read handlers ----

  /** `get_chat_history`: the session's conversations, oldest first. */
  function ChatHistory(convs: seq<Conversation>, sid: string): (r: seq<Conversation>)
    ensures forall i, j :: 0 <= i < j < |r| ==> r[i].timestamp <= r[j].timestamp
    ensures forall c :: multiset(r)[c] == if c.sessionId == sid then multiset(convs)[c] else 0
    ensures forall c :: c in r <==> c in convs && c.sessionId == sid
  {
    var p := (c: Conversation) => c.sessionId == sid;
    FilterThenSort(convs, p, Oldest);
    var r := Sort(Filter(convs, p), Oldest);
    assert forall i, j :: 0 <= i < j < |r| ==> Oldest(r[i]) <= Oldest(r[j]);
    r
  }

  /** `get_mood_history`: the `limit` most recent mood entries, newest first. */
  function MoodHistory(entries: seq<MoodRecord>, limit: int): (r: seq<MoodRecord>)
    ensures forall i, j :: 0 <= i < j < |r| ==> r[i].timestamp >= r[j].timestamp
    ensures |r| == if limit == 0 || |entries| <= Abs(limit) then |entries| else Abs(limit)
    ensures multiset(r) <= multiset(entries)
  {
    var sorted := Sort(entries, Newest);
    LimitOfSorted(sorted, limit, Newest);
    var r := Limit(sorted, limit);
    assert forall i, j :: 0 <= i < j < |r| ==> Newest(r[i]) <= Newest(r[j]);
    r
  }

  /** The entries `get_mood_history` leaves out are no newer than any it returns. */
  lemma MoodHistoryKeepsNewest(entries: seq<MoodRecord>, limit: int)
    ensures forall m, k ::
      m in multiset(entries) - multiset(MoodHistory(entries, limit)) && 0 <= k < |MoodHistory(entries, limit)|
      ==> m.timestamp <= MoodHistory(entries, limit)[k].timestamp
  {
    var sorted := Sort(entries, Newest);
    LimitOfSorted(sorted, limit, Newest);
    var r := MoodHistory(entries, limit);
    assert r == Limit(sorted, limit);
    forall m, k | m in multiset(entries) - multiset(r) && 0 <= k < |r|
      ensures m.timestamp <= r[k].timestamp
    {
      assert Newest(r[k]) <= Newest(m);
    }
  }

  /** The query `get_resources` builds: a category filter only for a truthy category. */
  predicate InCategory(res: ResourceRecord, category: Option<string>) {
    !Truthy(category) || res.category == category.value
  }

  /** `get_resources`: the stored resources of the category (all of them when
      the category is absent or empty), newest first. */
  function ResourcesIn(resources: seq<ResourceRecord>, category: Option<string>): (r: seq<ResourceRecord>)
    ensures forall i, j :: 0 <= i < j < |r| ==> r[i].timestamp >= r[j].timestamp
    ensures forall x :: multiset(r)[x] == if InCategory(x, category) then multiset(resources)[x] else 0
  {
    var p := (x: ResourceRecord) => InCategory(x, category);
    FilterThenSort(resources, p, NewestResource);
    var r := Sort(Filter(resources, p), NewestResource);
    assert forall i, j :: 0 <= i < j < |r| ==> NewestResource(r[i]) <= NewestResource(r[j]);
    r
  }

  /** With a non-empty category, exactly the stored resources of that category. */
  lemma ResourcesOfCategory(resources: seq<ResourceRecord>, category: string)
    requires category != ""
    ensures forall x :: x in ResourcesIn(resources, Some(category)) <==> x in resources && x.category == category
  {
    var r := ResourcesIn(resources, Some(category));
    forall x
      ensures x in r <==> x in resources && x.category == category
    {
      assert x in r <==> x in multiset(r);
      assert x in resources <==> x in multiset(resources);
    }
  }

  /** With no category, or an empty one, every stored resource. */
  lemma ResourcesOfAll(resources: seq<ResourceRecord>, category: Option<string>)
    requires !Truthy(category)
    ensures multiset(ResourcesIn(resources, category)) == multiset(resources)
  {
    var r := ResourcesIn(resources, category);
    assert forall x :: multiset(r)[x] == multiset(resources)[x];
  }

  /** `get_resource_categories` (`distinct("category")`): every category of a
      stored resource, each once. MongoDB leaves the order open; the model
      lists them by first occurrence. */
  function Categories(resources: seq<ResourceRecord>): (r: seq<string>)
    ensures forall i, j :: 0 <= i < j < |r| ==> r[i] != r[j]
    ensures forall c :: c in r <==> exists k :: 0 <= k < |resources| && resources[k].category == c
  {
    var cats := seq(|resources|, k requires 0 <= k < |resources| => resources[k].category);
    assert forall k :: 0 <= k < |resources| ==> cats[k] == resources[k].category;
    Distinct(cats)
  }

  // ---- Seeding ----

  const SampleTitles: seq<string> := [
    "Understanding Anxiety: A Beginner's Guide",
    "5-4-3-2-1 Grounding Technique",
    "Building a Daily Mindfulness Practice",
    "When to Seek Professional Help"]
  const SampleCategories: seq<string> := ["anxiety", "coping-strategies", "mindfulness", "professional-help"]
  const SampleDescriptions: seq<string> := [
    "Learn the basics of anxiety disorders and how they affect daily life.",
    "A simple grounding exercise to help manage anxiety and panic.",
    "Simple steps to incorporate mindfulness into your daily routine.",
    "Signs that indicate it's time to consult a mental health professional."]
  // The content paragraphs of the four samples. No contract mentions them:
  // each is set only in the body of the method that builds its document.
  const AnxietyContent := "Anxiety is a normal human emotion that everyone experiences from time to time. However, when anxiety becomes persistent, excessive, and interferes with daily activities, it may be classified as an anxiety disorder. Common symptoms include excessive worry, restlessness, fatigue, difficulty concentrating, irritability, muscle tension, and sleep disturbances. Understanding these symptoms is the first step toward managing anxiety effectively."
  const GroundingContent := "The 5-4-3-2-1 technique is a grounding exercise that uses your five senses to help you focus on the present moment: 5 things you can see, 4 things you can touch, 3 things you can hear, 2 things you can smell, and 1 thing you can taste. This technique helps interrupt anxious thoughts and brings your attention back to the here and now."
  const MindfulnessContent := "Mindfulness is the practice of paying attention to the present moment without judgment. Start with just 5 minutes a day: find a quiet space, focus on your breath, and when your mind wanders, gently bring attention back to breathing. You can also practice mindful walking, eating, or listening. Consistency is more important than duration."
  const HelpContent := "Consider seeking professional help if you experience: persistent sadness or anxiety lasting more than 2 weeks, difficulty functioning at work or in relationships, thoughts of self-harm, substance abuse as a coping mechanism, sleep disturbances, or significant changes in appetite. Remember, seeking help is a sign of strength, not weakness."

  /** r is the k-th sample document as `init_sample_resources` builds it,
      stamped with a fresh id and a clock reading, its url empty. */
  predicate IsSample(r: ResourceRecord, k: nat, id: string, now: int)
    requires k < 4
  {
    && r.id == id && r.timestamp == now && r.url == ""
    && r.title == SampleTitles[k] && r.category == SampleCategories[k]
    && r.description == SampleDescriptions[k]
  }

  /** The four sample documents in order, with the fresh ids and the clock
      readings taken while the list is built. */
  predicate SampleSet(samples: seq<ResourceRecord>, ids: seq<string>, times: seq<int>) {
    && |samples| == 4 && |ids| == 4 && |times| == 4
    && forall k :: 0 <= k < 4 ==> IsSample(samples[k], k, ids[k], times[k])
  }

  /** Sample document 0, the anxiety primer. */
  method AnxietyGuide(id: string, now: int) returns (r: ResourceRecord)
    ensures IsSample(r, 0, id, now)
  {
    r := ResourceRecord(id, SampleTitles[0], SampleCategories[0], SampleDescriptions[0], AnxietyContent, "", now);
  }

  /** Sample document 1, the 5-4-3-2-1 grounding exercise. */
  method GroundingTechnique(id: string, now: int) returns (r: ResourceRecord)
    ensures IsSample(r, 1, id, now)
  {
    r := ResourceRecord(id, SampleTitles[1], SampleCategories[1], SampleDescriptions[1], GroundingContent, "", now);
  }

  /** Sample document 2, the daily mindfulness guide. */
  method MindfulnessPractice(id: string, now: int) returns (r: ResourceRecord)
    ensures IsSample(r, 2, id, now)
  {
    r := ResourceRecord(id, SampleTitles[2], SampleCategories[2], SampleDescriptions[2], MindfulnessContent, "", now);
  }

  /** Sample document 3, the guide to seeking professional help. */
  method ProfessionalHelp(id: string, now: int) returns (r: ResourceRecord)
    ensures IsSample(r, 3, id, now)
  {
    r := ResourceRecord(id, SampleTitles[3], SampleCategories[3], SampleDescriptions[3], HelpContent, "", now);
  }

  /** The `sample_resources` list, built in order. */
  method SampleDocuments(ids: seq<string>, times: seq<int>) returns (samples: seq<ResourceRecord>)
    requires |ids| == 4 && |times| == 4
    ensures SampleSet(samples, ids, times)
  {
    var a := AnxietyGuide(ids[0], times[0]);
    var b := GroundingTechnique(ids[1], times[1]);
    var c := MindfulnessPractice(ids[2], times[2]);
    var d := ProfessionalHelp(ids[3], times[3]);
    samples := [a, b, c, d];
  }

  /** `init_sample_resources`: insert the samples only into an empty store. */
  function Seeded(resources: seq<ResourceRecord>, samples: seq<ResourceRecord>): (r: seq<ResourceRecord>)
    ensures |resources| == 0 ==> r == samples
    ensures |resources| > 0 ==> r == resources
  {
    if |resources| == 0 then samples else resources
  }

  // ---- The database and the handlers that write to it ----

  class Database {
    var conversations: seq<Conversation>
    var moodEntries: seq<MoodRecord>
    var resources: seq<ResourceRecord>

    constructor ()
      ensures conversations == [] && moodEntries == [] && resources == []
    {
      conversations, moodEntries, resources := [], [], [];
    }

    /** `chat_with_ai`: choose the session id, ask the LLM, and on an answer
        store one conversation document and return the answer with the id. */
    method ChatWithAi(req: ChatMessage, freshSession: string, llm: LlmOutcome, recordId: string, now: int)
      returns (r: Reply<ChatResponse>)
      modifies this
      ensures moodEntries == old(moodEntries) && resources == old(resources)
      ensures llm.Answered? ==>
        var sid := SessionFor(req.sessionId, freshSession);
        && r == Ok(ChatResponse(llm.text, sid))
        && conversations == old(conversations) + [Conversation(recordId, sid, req.message, llm.text, now)]
      ensures llm.Raised? ==>
        r == ServerError(ChatErrorPrefix + llm.error) && conversations == old(conversations)
    {
      var sid := SessionFor(req.sessionId, freshSession);
      match llm
      case Raised(e) =>
        r := ServerError(ChatErrorPrefix + e);
      case Answered(text) =>
        conversations := conversations + [Conversation(recordId, sid, req.message, text, now)];
        r := Ok(ChatResponse(text, sid));
    }

    /** `log_mood`: store the normalised entry and return it. */
    method LogMood(entry: MoodEntry, id: string, now: int) returns (r: MoodRecord)
      modifies this
      ensures r == NewMoodRecord(entry, id, now)
      ensures moodEntries == old(moodEntries) + [r]
      ensures conversations == old(conversations) && resources == old(resources)
    {
      r := NewMoodRecord(entry, id, now);
      moodEntries := moodEntries + [r];
    }

    /** `create_resource`: store the normalised resource and return it; it is
        then listed under its category. */
    method CreateResource(res: Resource, id: string, now: int) returns (r: ResourceRecord)
      modifies this
      ensures r == NewResourceRecord(res, id, now)
      ensures resources == old(resources) + [r]
      ensures r in ResourcesIn(resources, Some(res.category))
      ensures conversations == old(conversations) && moodEntries == old(moodEntries)
    {
      r := NewResourceRecord(res, id, now);
      resources := resources + [r];
      CreatedResourceIsListed(old(resources), r);
    }

    /** `init_sample_resources`, run at start-up: build the four samples,
        then insert them only into an empty store. */
    method InitSampleResources(ids: seq<string>, times: seq<int>) returns (samples: seq<ResourceRecord>)
      requires |ids| == 4 && |times| == 4
      modifies this
      ensures SampleSet(samples, ids, times)
      ensures resources == Seeded(old(resources), samples)
      ensures conversations == old(conversations) && moodEntries == old(moodEntries)
    {
      samples := SampleDocuments(ids, times);
      if |resources| == 0 {
        resources := resources + samples;
      }
    }
  }

  // ---- Properties of the store ----

  /** A stored resource is among the results for its own category. */
  lemma CreatedResourceIsListed(store: seq<ResourceRecord>, rec: ResourceRecord)
    ensures rec in ResourcesIn(store + [rec], Some(rec.category))
  {
    var r := ResourcesIn(store + [rec], Some(rec.category));
    assert rec in multiset(store + [rec]);
    assert rec in multiset(r);
  }

  /** Seeding twice is seeding once, whatever ids and clock readings the
      second run draws. */
  lemma SeedingIsIdempotent(store: seq<ResourceRecord>, first: seq<ResourceRecord>, second: seq<ResourceRecord>)
    requires |first| == 4
    ensures Seeded(Seeded(store, first), second) == Seeded(store, first)
  {
  }

  /** The seeded store offers exactly the four sample categories. */
  lemma SampleCategoriesListed(samples: seq<ResourceRecord>, ids: seq<string>, times: seq<int>)
    requires SampleSet(samples, ids, times)
    ensures forall c :: c in Categories(Seeded([], samples)) <==> c in SampleCategories
    ensures |Categories(Seeded([], samples))| == 4
  {
    var cats := seq(|samples|, k requires 0 <= k < |samples| => samples[k].category);
    assert cats == SampleCategories by {
      forall k | 0 <= k < 4
        ensures cats[k] == SampleCategories[k]
      {
        assert IsSample(samples[k], k, ids[k], times[k]);
      }
    }
    DistinctOfDistinct(SampleCategories);
  }

  /** When every insert gets a later timestamp than the one before, a
      session's history lists its messages in the order they were sent. With
      distinct timestamps this holds for any sort by timestamp, not only for
      the model's stable one. */
  lemma {:induction false} ChatHistoryInSendOrder(convs: seq<Conversation>, sid: string)
    requires forall i, j :: 0 <= i < j < |convs| ==> convs[i].timestamp < convs[j].timestamp
    ensures ChatHistory(convs, sid) == Filter(convs, (c: Conversation) => c.sessionId == sid)
  {
    var p := (c: Conversation) => c.sessionId == sid;
    assert SortedBy(convs, Oldest);
    FilterOfSorted(convs, p, Oldest);
    SortOfSorted(Filter(convs, p), Oldest);
  }

  /** A positive limit no larger than the store yields exactly that many entries. */
  lemma MoodHistoryExactLimit(entries: seq<MoodRecord>, limit: int)
    requires 0 < limit <= |entries|
    ensures |MoodHistory(entries, limit)| == limit
  {
  }
}
