/**
 * Request shaping of the chat endpoint and the single-page-app fallback of the static file
 * handler (server/main.py). Retrieval and the language-model chain are not modelled: the
 * retrieved documents and the model's answer enter as parameters.
 */
module Server {
  import opened Wrappers
  import opened Seqs
  import opened Sources

  /** A pydantic `Chat`: one message of the conversation sent by the client. */
  datatype Chat = Chat(role: string, content: string)

  /** An `HTTPException` raised by a handler. */
  datatype HttpError = HttpError(status: nat, detail: string)

  /** What process_chat passes on to retrieval and to the chain. */
  datatype ChatQuery = ChatQuery(query: string, history: seq<(string, string)>)

  /** The `body` of a successful chat answer. */
  datatype ChatAnswer = ChatAnswer(response: string, sources: seq<Entry>)

  const BadRequest: nat := 400

  /** The roles that may enter the history given to the chain. */
  predicate KnownRole(role: string) {
    role == "system" || role == "human" || role == "ai"
  }

  /** The condition of the history comprehension: a known role and a non-empty (truthy) content. */
  predicate KeptInHistory(c: Chat) {
    KnownRole(c.role) && c.content != ""
  }

  function AsPair(c: Chat): (string, string) {
    (c.role, c.content)
  }

  function Pairs(chats: seq<Chat>): (r: seq<(string, string)>)
    ensures |r| == |chats|
    ensures forall i :: 0 <= i < |chats| ==> r[i] == AsPair(chats[i])
  {
    if chats == [] then [] else [AsPair(chats[0])] + Pairs(chats[1..])
  }

  /** `[(c.role, c.content) for c in earlier if c.role in ("system", "human", "ai") and c.content]` */
  function History(earlier: seq<Chat>): (h: seq<(string, string)>)
    ensures |h| == Count(earlier, KeptInHistory)
  {
    FilterLength(earlier, KeptInHistory);
    Pairs(Filter(earlier, KeptInHistory))
  }

  /** The validation and extraction at the start of process_chat. */
  function ProcessChat(chats: seq<Chat>): (r: Result<ChatQuery, HttpError>)
    ensures r.Failure? <==> chats == []
    ensures r.Failure? ==> r.error == HttpError(BadRequest, "Invalid chat query")
    ensures r.Success? ==> r.value.query == chats[|chats| - 1].content
    ensures r.Success? ==> r.value.history == History(chats[..|chats| - 1])
  {
    if |chats| == 0 then Failure(HttpError(BadRequest, "Invalid chat query"))
    else
      var earlier := chats[..|chats| - 1];
      Success(ChatQuery(chats[|chats| - 1].content, History(earlier)))
  }

  lemma {:induction false} PairsSubsequence(a: seq<Chat>, b: seq<Chat>)
    requires IsSubsequence(a, b)
    ensures IsSubsequence(Pairs(a), Pairs(b))
    decreases |b|
  {
    if a != [] {
      assert Pairs(a)[1..] == Pairs(a[1..]);
      assert Pairs(b)[1..] == Pairs(b[1..]);
      if a[0] == b[0] && IsSubsequence(a[1..], b[1..]) {
        PairsSubsequence(a[1..], b[1..]);
      } else {
        PairsSubsequence(a, b[1..]);
      }
    }
  }

  /**
   * The history is drawn from the messages before the last, in their order, and holds exactly
   * those of a known role with non-empty content: every one of them appears, every entry is one of
   * them, and there are as many entries as such messages, so none is dropped or repeated.
   */
  lemma HistoryFromEarlier(chats: seq<Chat>)
    requires chats != []
    ensures var earlier := chats[..|chats| - 1];
      var h := ProcessChat(chats).value.history;
      && IsSubsequence(h, Pairs(earlier))
      && (forall i :: 0 <= i < |h| ==> KnownRole(h[i].0) && h[i].1 != "")
      && (forall i :: 0 <= i < |earlier| && KeptInHistory(earlier[i]) ==> AsPair(earlier[i]) in h)
      && |h| == Count(earlier, KeptInHistory)
  {
    var earlier := chats[..|chats| - 1];
    var kept := Filter(earlier, KeptInHistory);
    FilterIsSubsequence(earlier, KeptInHistory);
    PairsSubsequence(kept, earlier);
    var h := Pairs(kept);
    forall i | 0 <= i < |h| ensures KnownRole(h[i].0) && h[i].1 != "" {
      assert kept[i] in earlier && KeptInHistory(kept[i]);
    }
    forall i | 0 <= i < |earlier| && KeptInHistory(earlier[i]) ensures AsPair(earlier[i]) in h {
      var j :| 0 <= j < |kept| && kept[j] == earlier[i];
      assert h[j] == AsPair(earlier[i]);
    }
  }

  /** The body process_chat returns once the chain has produced `answer` from `retrieved`. */
  function AnswerBody(answer: string, retrieved: seq<Doc>): (r: ChatAnswer)
    ensures r.response == answer
    ensures multiset(r.sources) == multiset(Grouped(retrieved))
    ensures AllScored(r.sources) && NonIncreasing(r.sources)
    ensures AllScored(Grouped(retrieved)) && forall v :: WithRank(r.sources, v) == WithRank(Grouped(retrieved), v)
  {
    ChatAnswer(answer, SourcesMetadata(retrieved))
  }

  // ---------------------------------------------------------------------------------------------
  // frontend_handler

  /** The file the handler serves: the app's index page, or a file under the static directory. */
  datatype Served = IndexPage | StaticFile(path: string)

  /**
   * `frontend_handler(path)`; `fileExists(p)` stands for `(STATIC_DIR / p).exists()`. A missing file
   * and the empty path (the static directory itself) both fall back to `index.html`.
   */
  function FrontendHandler(path: string, fileExists: string -> bool): (r: Served)
    ensures r.StaticFile? <==> path != "" && fileExists(path)
    ensures r.StaticFile? ==> r.path == path
  {
    if !fileExists(path) then IndexPage
    else if path == "" then IndexPage
    else StaticFile(path)
  }

  /** When `index.html` exists, the handler only ever serves a file that exists. */
  lemma FrontendServesExisting(path: string, fileExists: string -> bool)
    requires fileExists("index.html")
    ensures match FrontendHandler(path, fileExists)
      case IndexPage => fileExists("index.html")
      case StaticFile(p) => fileExists(p) && p != ""
  {
  }
}
