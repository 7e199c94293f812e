/** The client state and the pure view helpers of frontend/src/App.js.
    `fetch` is not modelled: each request's outcome is an input to the
    method that continues after the `await`. */
module App {
  import opened Common
  import opened JsString
  import opened Server

  // ---- Configuration and endpoints ----

  const DefaultApiBase := "http://localhost:8001"
  const ResourcesPath := "/api/resources"
  const CategoryQuery := "?category="
  /** The sentinel category that stands for "no filter". */
  const AllCategories := "all"

  /** `process.env.REACT_APP_BACKEND_URL || 'http://localhost:8001'`. */
  function ApiBaseUrl(env: Option<string>): (base: string)
    ensures Truthy(env) ==> base == env.value
    ensures !Truthy(env) ==> base == DefaultApiBase
    ensures base != ""
  {
    if Truthy(env) then env.value else DefaultApiBase
  }

  /** The category `loadResources` sends to the server: a truthy value other
      than the sentinel. */
  predicate FiltersBy(category: Option<string>) {
    Truthy(category) && category.value != AllCategories
  }

  /** The URL `loadResources(category)` fetches. */
  function ResourcesUrl(base: string, category: Option<string>): (url: string)
    ensures |url| >= |base + ResourcesPath| && url[..|base + ResourcesPath|] == base + ResourcesPath
    ensures FiltersBy(category) ==> url[|base + ResourcesPath|..] == CategoryQuery + category.value
    ensures !FiltersBy(category) ==> |url| == |base + ResourcesPath|
  {
    if FiltersBy(category) then base + ResourcesPath + CategoryQuery + category.value
    else base + ResourcesPath
  }

  // ---- Mood display ----

  const Emojis: seq<string> := ["\U{1F622}", "\U{1F614}", "\U{1F610}", "\U{1F60A}", "\U{1F604}"]
  const NeutralEmoji := "\U{1F610}"

  /** `getMoodEmoji`: `emojis[Math.floor((level - 1) / 2)] || '😐'`. Dafny's
      division by 2 is the floor, as in the source. */
  function MoodEmoji(level: int): (r: string)
    ensures r in Emojis
    ensures level < 1 || level > 10 ==> r == NeutralEmoji
  {
    var i := (level - 1) / 2;
    if 0 <= i < |Emojis| then Emojis[i] else NeutralEmoji
  }

  /** The five colour bands of `getMoodColor`, lowest mood first. */
  datatype Tone = Red | Orange | Yellow | Green | Blue {
    function ClassName(): string {
      match this
      case Red => "text-red-500"
      case Orange => "text-orange-500"
      case Yellow => "text-yellow-500"
      case Green => "text-green-500"
      case Blue => "text-blue-500"
    }

    function Rank(): nat {
      match this
      case Red => 0
      case Orange => 1
      case Yellow => 2
      case Green => 3
      case Blue => 4
    }
  }

  function Clamp(x: int, lo: int, hi: int): int
    requires lo <= hi
  {
    if x < lo then lo else if x > hi then hi else x
  }

  /** `getMoodColor`: the band of a level is the emoji index, clamped to the
      five bands. */
  function MoodTone(level: int): (t: Tone)
    ensures t.Rank() == Clamp((level - 1) / 2, 0, 4)
  {
    if level <= 2 then Red
    else if level <= 4 then Orange
    else if level <= 6 then Yellow
    else if level <= 8 then Green
    else Blue
  }

  const BandColours: seq<string> := ["red", "orange", "yellow", "green", "blue"]

  /** The class `getMoodColor` returns is the Tailwind 500 shade of the
      band's colour, the band being the clamped emoji index. */
  lemma MoodColorClass(level: int)
    ensures MoodTone(level).ClassName() == "text-" + BandColours[Clamp((level - 1) / 2, 0, 4)] + "-500"
  {
    var t := MoodTone(level);
    match t
    case Red => assert "text-red-500" == "text-" + BandColours[0] + "-500";
    case Orange => assert "text-orange-500" == "text-" + BandColours[1] + "-500";
    case Yellow => assert "text-yellow-500" == "text-" + BandColours[2] + "-500";
    case Green => assert "text-green-500" == "text-" + BandColours[3] + "-500";
    case Blue => assert "text-blue-500" == "text-" + BandColours[4] + "-500";
  }

  /** A higher mood never gets a lower colour band. */
  lemma MoodToneMonotone(a: int, b: int)
    requires a <= b
    ensures MoodTone(a).Rank() <= MoodTone(b).Rank()
  {
  }

  /** On the slider's 1-10 scale, the emoji and the colour agree: both follow
      the band, two levels per band. */
  lemma MoodEmojiFollowsTone(level: int)
    requires 1 <= level <= 10
    ensures MoodEmoji(level) == Emojis[MoodTone(level).Rank()]
  {
  }

  /** Levels 2k-1 and 2k share the k-th emoji: 1-2 the first, 9-10 the last. */
  lemma MoodEmojiPairs(k: int)
    requires 1 <= k <= 5
    ensures MoodEmoji(2 * k - 1) == MoodEmoji(2 * k) == Emojis[k - 1]
  {
  }

  // ---- Resource and helpline display ----

  const PreviewLength := 200
  const Ellipsis := "..."

  /** The card text: content up to 200 characters, else its first 200
      followed by "...". */
  function Preview(content: string): (r: string)
    ensures |content| <= PreviewLength ==> r == content
    ensures |content| > PreviewLength ==>
      |r| == PreviewLength + |Ellipsis| && r[..PreviewLength] == content[..PreviewLength]
      && r[PreviewLength..] == Ellipsis
  {
    if |content| > PreviewLength then content[..PreviewLength] + Ellipsis else content
  }

  /** A preview is its own preview. */
  lemma PreviewIdempotent(content: string)
    ensures Preview(Preview(content)) == Preview(content)
  {
    if |content| > PreviewLength {
      var p := Preview(content);
      assert p[..PreviewLength] == content[..PreviewLength];
    }
  }

  /** The filter button text: the first character upper-cased, and the first
      hyphen after it turned into a space (`replace` with a string pattern). */
  function CategoryLabel(category: string): (r: string)
    ensures |r| == |category|
    ensures category != [] ==> r[0] == UpperAscii(category[0])
    ensures forall k :: 1 <= k < |category| ==>
      r[k] == if k == 1 + IndexOf(category[1..], '-') then ' ' else category[k]
  {
    if category == [] then [] else [UpperAscii(category[0])] + ReplaceFirst(category[1..], '-', ' ')
  }

  /** The category badge on a resource card: the first hyphen turned into a space. */
  function CategoryBadge(category: string): (r: string)
    ensures |r| == |category|
    ensures forall k :: 0 <= k < |category| ==>
      r[k] == if k == IndexOf(category, '-') then ' ' else category[k]
    ensures multiset(r)['-'] == multiset(category)['-'] - (if '-' in category then 1 else 0)
  {
    ReplaceFirstCount(category, '-', ' ');
    ReplaceFirst(category, '-', ' ')
  }

  const TelScheme := "tel:"

  /** The `href` of a helpline: the scheme and the digits of the number. */
  function TelHref(phone: string): (href: string)
    ensures |href| >= |TelScheme| && href[..|TelScheme|] == TelScheme
    ensures forall k :: |TelScheme| <= k < |href| ==> IsDigit(href[k])
  {
    var href := TelScheme + DigitsOnly(phone);
    assert href[|TelScheme|..] == DigitsOnly(phone);
    href
  }

  /** A toll-free number "1-aaa-bbb-cccc" is dialled without its hyphens,
      as for the helplines 1-800-662-4357 and 1-800-799-7233. */
  lemma TollFreeHref(a: string, b: string, c: string)
    requires DigitsOnly(a) == a && DigitsOnly(b) == b && DigitsOnly(c) == c
    ensures TelHref("1-" + a + "-" + b + "-" + c) == TelScheme + ("1" + a + b + c)
  {
    TollFreeDigits(a, b, c);
  }

  /** Words before a number are dropped from the link, so the text line
      "Text HOME to 741741" becomes a call link to 741741. */
  lemma {:induction false} WordsBeforeNumberDropped(words: string, number: string)
    requires forall k :: 0 <= k < |words| ==> !IsDigit(words[k])
    requires forall k :: 0 <= k < |number| ==> IsDigit(number[k])
    ensures TelHref(words + number) == TelScheme + number
  {
    DigitsOnlyAppend(words, number);
    DigitsOnlyOfNonDigits(words);
    DigitsOnlyOfDigits(number);
  }

  const HistoryWindow := 10

  /** `moodHistory.slice(0, 10)`: the first ten entries, or all of fewer. */
  function RecentWindow<T>(history: seq<T>): (r: seq<T>)
    ensures |r| == if |history| < HistoryWindow then |history| else HistoryWindow
    ensures r == history[..|r|]
  {
    if |history| < HistoryWindow then history else history[..HistoryWindow]
  }

  // ---- Chat transcript ----

  datatype Sender = User | Ai

  /** One entry of `chatMessages`: `{type, content, timestamp}`. */
  datatype Turn = Turn(sender: Sender, content: string, timestamp: string)

  /** The parsed body of a POST /api/chat response. A body without a field
      (the server's `{"detail": ...}` error body) leaves it absent. */
  datatype ChatReply = ChatReply(response: Option<string>, sessionId: Option<string>)

  const Apology := "I apologize, but I'm having trouble connecting right now. Please try again in a moment."

  /** What a user turn holds: the trimmed input, never blank. */
  predicate Sendable(text: string) {
    text != [] && Tight(text)
  }

  /** The transcript alternates user and ai turns, starting with a user turn;
      every user turn is sendable; it ends on a user turn exactly while a
      request is in flight. */
  predicate Alternating(turns: seq<Turn>, busy: bool) {
    && (turns == [] || turns[0].sender == User)
    && (forall i :: 0 <= i < |turns| - 1 ==> turns[i].sender != turns[i + 1].sender)
    && (forall i :: 0 <= i < |turns| && turns[i].sender == User ==> Sendable(turns[i].content))
    && busy == (turns != [] && turns[|turns| - 1].sender == User)
  }

  /** A user turn may follow a settled transcript. */
  lemma UserTurnAlternates(turns: seq<Turn>, text: string, now: string)
    requires Alternating(turns, false) && Sendable(text)
    ensures Alternating(turns + [Turn(User, text, now)], true)
  {
    var t := turns + [Turn(User, text, now)];
    forall i | 0 <= i < |t|
      ensures i < |t| - 1 ==> t[i].sender != t[i + 1].sender
      ensures t[i].sender == User ==> Sendable(t[i].content)
    {
      if i < |turns| {
        assert t[i] == turns[i];
      }
      if i < |turns| - 1 {
        assert t[i + 1] == turns[i + 1];
      }
    }
  }

  /** An ai turn settles a transcript that ends on a user turn. */
  lemma AiTurnAlternates(turns: seq<Turn>, text: string, now: string)
    requires Alternating(turns, true)
    ensures Alternating(turns + [Turn(Ai, text, now)], false)
  {
    var t := turns + [Turn(Ai, text, now)];
    forall i | 0 <= i < |t|
      ensures i < |t| - 1 ==> t[i].sender != t[i + 1].sender
      ensures t[i].sender == User ==> Sendable(t[i].content)
    {
      if i < |turns| {
        assert t[i] == turns[i];
      }
      if i < |turns| - 1 {
        assert t[i + 1] == turns[i + 1];
      }
    }
  }

  /** `if (!sessionId) setSessionId(data.session_id)`. */
  function AdoptSession(held: Option<string>, returned: Option<string>): (s: Option<string>)
    ensures Truthy(held) ==> s == held
    ensures !Truthy(held) ==> s == returned
  {
    if Truthy(held) then held else returned
  }

  /** Once a session id is held, no later reply changes it. */
  lemma AdoptionIsFinal(held: Option<string>, first: Option<string>, later: Option<string>)
    requires Truthy(AdoptSession(held, first))
    ensures AdoptSession(AdoptSession(held, first), later) == AdoptSession(held, first)
    ensures Truthy(held) ==> AdoptSession(held, first) == held
  {
  }

  // ---- Mood form ----

  /** How a mood POST settles: an ok response, a non-ok response, or a thrown error. */
  datatype MoodOutcome = Accepted | Rejected | Thrown

  const DefaultMoodLevel := 5
  const MoodLoggedAlert := "Mood logged successfully!"
  const MoodErrorAlert := "Error logging mood. Please try again."

  // ---- The component's state ----

  class AppState {
    const apiBase: string
    var turns: seq<Turn>
    var input: string
    var sessionId: Option<string>
    var isLoading: bool
    var moodLevel: int
    var moodNotes: string
    var selectedCategory: string
    var categories: seq<string>

    ghost predicate Valid()
      reads this`turns, this`isLoading, this`moodLevel, this`categories
    {
      && Alternating(turns, isLoading)
      && 1 <= moodLevel <= 10
      && (categories == [] || categories[0] == AllCategories)
    }

    /** The initial `useState` values. */
    constructor (env: Option<string>)
      ensures Valid()
      ensures apiBase == ApiBaseUrl(env)
      ensures turns == [] && input == "" && sessionId == None && !isLoading
      ensures moodLevel == DefaultMoodLevel && moodNotes == ""
      ensures selectedCategory == AllCategories && categories == []
    {
      apiBase := ApiBaseUrl(env);
      turns, input, sessionId, isLoading := [], "", None, false;
      moodLevel, moodNotes := DefaultMoodLevel, "";
      selectedCategory, categories := AllCategories, [];
    }

    /** Typing into the chat input. */
    method EditInput(text: string)
      requires Valid()
      modifies this`input
      ensures Valid() && input == text
    {
      input := text;
    }

    /** `sendMessage` up to its `await`: a blank input or a send while busy
        is ignored; otherwise the trimmed text is echoed as a user turn, the
        input is cleared, the busy flag is raised, and the request body is
        returned. */
    method BeginSend(now: string) returns (req: Option<ChatMessage>)
      requires Valid()
      modifies this`turns, this`input, this`isLoading
      ensures Valid()
      ensures req.Some? <==> Trim(old(input)) != [] && !old(isLoading)
      ensures req.None? ==> turns == old(turns) && input == old(input) && isLoading == old(isLoading)
      ensures req.Some? ==>
        && req.value == ChatMessage(Trim(old(input)), sessionId)
        && turns == old(turns) + [Turn(User, Trim(old(input)), now)]
        && input == "" && isLoading
    {
      var text := Trim(input);
      if text != [] && !isLoading {
        PostUserTurn(text, now);
        req := Some(ChatMessage(text, sessionId));
      } else {
        req := None;
      }
    }

    /** The echo of a sendable text: a user turn, a cleared input and the
        busy flag. */
    method PostUserTurn(text: string, now: string)
      requires Valid() && !isLoading && Sendable(text)
      modifies this`turns, this`input, this`isLoading
      ensures Valid()
      ensures turns == old(turns) + [Turn(User, text, now)] && input == "" && isLoading
    {
      UserTurnAlternates(turns, text, now);
      turns, isLoading, input := turns + [Turn(User, text, now)], true, "";
    }

    /** `sendMessage` after a response body was parsed: adopt the returned
        session id if none is held, append the reply as an ai turn (an absent
        `response` shows as an empty turn), and lower the busy flag. */
    method CompleteSend(reply: ChatReply, now: string)
      requires Valid() && isLoading
      modifies this`turns, this`isLoading, this`sessionId
      ensures Valid() && !isLoading
      ensures turns == old(turns) + [Turn(Ai, reply.response.GetOr(""), now)]
      ensures sessionId == AdoptSession(old(sessionId), reply.sessionId)
    {
      if !Truthy(sessionId) {
        sessionId := reply.sessionId;
      }
      AiTurnAlternates(turns, reply.response.GetOr(""), now);
      turns := turns + [Turn(Ai, reply.response.GetOr(""), now)];
      isLoading := false;
    }

    /** `sendMessage` after `fetch` or the JSON decoding threw: append the
        apology as an ai turn and lower the busy flag; the session is kept. */
    method FailSend(now: string)
      requires Valid() && isLoading
      modifies this`turns, this`isLoading
      ensures Valid() && !isLoading
      ensures turns == old(turns) + [Turn(Ai, Apology, now)]
    {
      AiTurnAlternates(turns, Apology, now);
      turns := turns + [Turn(Ai, Apology, now)];
      isLoading := false;
    }

    /** Moving the 1-10 slider. */
    method SetMoodLevel(level: int)
      requires Valid() && 1 <= level <= 10
      modifies this`moodLevel
      ensures Valid() && moodLevel == level
    {
      moodLevel := level;
    }

    /** Typing into the notes field. */
    method EditNotes(text: string)
      requires Valid()
      modifies this`moodNotes
      ensures Valid() && moodNotes == text
    {
      moodNotes := text;
    }

    /** The body `logMood` posts: the current level and notes, no activities.
        The slider keeps the level within its range, which the server never
        checks. */
    function MoodRequest(): (body: MoodEntry)
      reads this
      ensures body.moodLevel == moodLevel && body.notes == Some(moodNotes)
      ensures body.activities == Some([])
      ensures Valid() ==> 1 <= body.moodLevel <= 10
    {
      MoodEntry(moodLevel, Some(moodNotes), Some([]))
    }

    /** `logMood` after its `await`: only an ok response resets the form,
        asks for the history to be reloaded and reports success; only a
        thrown error raises the failure alert; a non-ok response does nothing. */
    method SettleLogMood(outcome: MoodOutcome) returns (reloadHistory: bool, alertText: Option<string>)
      requires Valid()
      modifies this`moodNotes, this`moodLevel
      ensures Valid()
      ensures reloadHistory <==> outcome == Accepted
      ensures outcome == Accepted ==>
        moodNotes == "" && moodLevel == DefaultMoodLevel && alertText == Some(MoodLoggedAlert)
      ensures outcome != Accepted ==> moodNotes == old(moodNotes) && moodLevel == old(moodLevel)
      ensures outcome == Rejected ==> alertText == None
      ensures outcome == Thrown ==> alertText == Some(MoodErrorAlert)
    {
      match outcome
      case Accepted =>
        moodNotes := "";
        moodLevel := DefaultMoodLevel;
        reloadHistory, alertText := true, Some(MoodLoggedAlert);
      case Rejected =>
        reloadHistory, alertText := false, None;
      case Thrown =>
        reloadHistory, alertText := false, Some(MoodErrorAlert);
    }

    /** `handleCategoryChange`: select the category, then fetch its resources
        from the returned URL. */
    method HandleCategoryChange(category: string) returns (url: string)
      requires Valid()
      modifies this`selectedCategory
      ensures Valid() && selectedCategory == category
      ensures url == ResourcesUrl(apiBase, Some(category))
    {
      selectedCategory := category;
      url := ResourcesUrl(apiBase, Some(category));
    }

    /** `loadCategories` after a successful fetch: the sentinel, then the
        server's categories. */
    method CategoriesLoaded(fetched: seq<string>)
      requires Valid()
      modifies this`categories
      ensures Valid()
      ensures categories == [AllCategories] + fetched
    {
      categories := [AllCategories] + fetched;
    }
  }

  /** A second send while the first is in flight is ignored: only the first
      trimmed input reaches the transcript and the server. */
  method DoubleSendScenario(app: AppState, t0: string, t1: string)
    requires app.Valid() && !app.isLoading && Trim(app.input) != []
    modifies app
  {
    var text := Trim(app.input);
    var n := |app.turns|;
    var first := app.BeginSend(t0);
    assert first == Some(ChatMessage(text, app.sessionId));
    var second := app.BeginSend(t1);
    assert second == None;
    assert app.turns[n..] == [Turn(User, text, t0)] && app.isLoading;
  }

  /** The first reply on an unbound page binds the session to the id the
      server chose. */
  method FirstReplyScenario(app: AppState, text: string, answer: string, sid: string)
    requires app.Valid() && !app.isLoading && !Truthy(app.sessionId) && Sendable(text)
    requires sid != ""
    modifies app
  {
    var n := |app.turns|;
    app.EditInput(text);
    TrimOfTight(text);
    var req := app.BeginSend("t1");
    assert req == Some(ChatMessage(text, app.sessionId));
    app.CompleteSend(ChatReply(Some(answer), Some(sid)), "t2");
    assert app.turns[n..] == [Turn(User, text, "t1"), Turn(Ai, answer, "t2")];
    assert app.sessionId == Some(sid) && !app.isLoading;
  }

  /** A failed send on a bound session appends the apology and keeps the session. */
  method FailedSendScenario(app: AppState, text: string)
    requires app.Valid() && !app.isLoading && Truthy(app.sessionId) && Sendable(text)
    modifies app
  {
    var sid := app.sessionId;
    var n := |app.turns|;
    app.EditInput(text);
    TrimOfTight(text);
    var req := app.BeginSend("t3");
    assert req == Some(ChatMessage(text, sid));
    app.FailSend("t4");
    assert app.turns[n..] == [Turn(User, text, "t3"), Turn(Ai, Apology, "t4")];
    assert app.sessionId == sid && !app.isLoading;
  }
}
