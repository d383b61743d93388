/** The generation service of rag/main.py: `Chat.create_db` rebuilds the
    vector index of the 'vectordb' directory from the pages, `Chat.generate`
    decides from the token whether to rebuild, retrieves documents, joins
    them into the context and asks the model, and the /generate handler
    maps the request onto `generate`. The scraper, the chunker, the vector
    store and the language model are the uninterpreted functions of an
    `Engines` value; the directory's contents are an `Index` value. */
module Rag {
  import opened Wrappers
  import opened Text
  import opened Json

  /** A LangChain document; only its text matters here. */
  datatype Doc = Doc(pageContent: string)

  /** The 'vectordb' directory: absent, or a persisted index over chunks. */
  datatype Index = NoIndex | Built(chunks: seq<Doc>)

  /** What `Chroma.from_documents` does: persist the chunks, or raise
      after leaving some directory behind. */
  datatype PersistOutcome = Persisted | PersistFailed(leftOver: Index)

  /** The external engines, each `None` when it raises: the scraper, the
      semantic chunker, the persisting vector store, the multi-query
      retriever over an index, and the prompt chain on a context and a
      question. */
  datatype Engines = Engines(
    scrape: seq<string> -> Option<seq<Doc>>,
    split: seq<Doc> -> Option<seq<Doc>>,
    persist: seq<Doc> -> PersistOutcome,
    retrieve: (Index, string) -> Option<seq<Doc>>,
    answer: (string, string) -> Option<string>)

  /** `ScrapeFailed`: the scraper raised, outside the `try`; `ValueError`:
      what the `except` clause raises for any failure inside it;
      `EngineFailed`: the retriever or the model raised, which nothing in
      `generate` catches. */
  datatype RagError = ScrapeFailed | ValueError | EngineFailed

  datatype DbOutcome = DbOutcome(index: Index, error: Option<RagError>)

  /** `create_db`: remove the old directory, scrape, and, when there are
      documents, chunk them and persist the chunks. */
  function CreateDbOutcome(previous: Index, urls: seq<string>, engines: Engines): (r: DbOutcome)
    ensures engines.scrape(urls).None? ==> r == DbOutcome(NoIndex, Some(ScrapeFailed))
    ensures engines.scrape(urls) == Some([]) ==> r == DbOutcome(NoIndex, None)
    ensures r.error.None? ==>
              (r.index == NoIndex && engines.scrape(urls) == Some([])) ||
              (exists chunks :: r.index == Built(chunks) &&
                 engines.split(engines.scrape(urls).value) == Some(chunks))
    ensures r.error == Some(ValueError) ==>
              engines.scrape(urls).Some? && engines.scrape(urls).value != [] &&
              (engines.split(engines.scrape(urls).value).None? ||
               engines.persist(engines.split(engines.scrape(urls).value).value).PersistFailed?)
    ensures engines.scrape(urls).Some? && engines.scrape(urls).value != [] ==>
              var split := engines.split(engines.scrape(urls).value);
              (split.None? ==> r == DbOutcome(NoIndex, Some(ValueError))) &&
              (split.Some? && engines.persist(split.value) == Persisted ==>
                 r == DbOutcome(Built(split.value), None)) &&
              (split.Some? && engines.persist(split.value).PersistFailed? ==>
                 r == DbOutcome(engines.persist(split.value).leftOver, Some(ValueError)))
  {
    var purged := NoIndex;
    match engines.scrape(urls)
    case None => DbOutcome(purged, Some(ScrapeFailed))
    case Some(docs) =>
      if docs == [] then DbOutcome(purged, None)
      else
        match engines.split(docs)
        case None => DbOutcome(purged, Some(ValueError))
        case Some(chunks) =>
          match engines.persist(chunks)
          case Persisted => DbOutcome(Built(chunks), None)
          case PersistFailed(left) => DbOutcome(left, Some(ValueError))
  }

  /** The rebuild never reads the old index: whatever was there, the
      outcome is the same. */
  lemma {:induction false} PurgeFirst(a: Index, b: Index, urls: seq<string>, engines: Engines)
    ensures CreateDbOutcome(a, urls, engines) == CreateDbOutcome(b, urls, engines)
  {
    match engines.scrape(urls)
    case None =>
    case Some(docs) =>
      if docs != [] && engines.split(docs).Some? {
        match engines.persist(engines.split(docs).value)
        case Persisted =>
        case PersistFailed(_) =>
      }
  }

  function PageContents(docs: seq<Doc>): (r: seq<string>)
    ensures |r| == |docs|
    ensures forall i :: 0 <= i < |docs| ==> r[i] == docs[i].pageContent
  {
    seq(|docs|, i requires 0 <= i < |docs| => docs[i].pageContent)
  }

  /** The context the prompt receives: the documents' texts in retrieval
      order, separated by blank lines. */
  function Context(docs: seq<Doc>): string
  {
    Join(PageContents(docs), "\n\n")
  }

  /** The layout of the context: document `i` starts at `Offset`, is
      followed by "\n\n" unless it is the last, and the last one ends the
      context; with no documents the context is "". */
  lemma ContextLayout(docs: seq<Doc>, i: nat)
    requires i < |docs|
    ensures var c, o := Context(docs), Offset(PageContents(docs), "\n\n", i);
              o + |docs[i].pageContent| <= |c| &&
              c[o..o + |docs[i].pageContent|] == docs[i].pageContent &&
              (i + 1 < |docs| ==>
                 o + |docs[i].pageContent| + 2 <= |c| &&
                 c[o + |docs[i].pageContent|..o + |docs[i].pageContent| + 2] == "\n\n") &&
              (i + 1 == |docs| ==> |c| == o + |docs[i].pageContent|)
  {
    JoinAt(PageContents(docs), "\n\n", i);
  }

  lemma NoDocsNoContext()
    ensures Context([]) == ""
  {
  }

  /** The outcome of one `generate`: the directory afterwards and the answer
      or the error. */
  datatype Generated = Generated(index: Index, result: Result<string, RagError>)

  /** Retrieval from `index` and the model's answer on the joined context
      both return. */
  predicate Answers(index: Index, question: string, engines: Engines)
  {
    engines.retrieve(index, question).Some? &&
    engines.answer(Context(engines.retrieve(index, question).value), question).Some?
  }

  /** `generate`: rebuild exactly when the token is the string "0", then
      retrieve from whatever index there is and answer from the joined
      context. */
  function GenerateOutcome(index: Index, question: string, urls: seq<string>, token: JsonScalar,
                    engines: Engines): (r: Generated)
    ensures !IsStringZero(token) ==> r.index == index
    ensures IsStringZero(token) ==> r.index == CreateDbOutcome(index, urls, engines).index
    ensures IsStringZero(token) && CreateDbOutcome(index, urls, engines).error.Some? ==>
              r.result == Failure(CreateDbOutcome(index, urls, engines).error.value)
    ensures !IsStringZero(token) || CreateDbOutcome(index, urls, engines).error.None? ==>
              (r.result.Success? <==> Answers(r.index, question, engines)) &&
              (r.result.Failure? ==> r.result.error == EngineFailed)
    ensures r.result.Success? ==>
              Answers(r.index, question, engines) &&
              Some(r.result.value) ==
                engines.answer(Context(engines.retrieve(r.index, question).value), question)
  {
    var db := if IsStringZero(token) then CreateDbOutcome(index, urls, engines) else DbOutcome(index, None);
    if db.error.Some? then Generated(db.index, Failure(db.error.value))
    else
      match engines.retrieve(db.index, question)
      case None => Generated(db.index, Failure(EngineFailed))
      case Some(docs) =>
        match engines.answer(Context(docs), question)
        case None => Generated(db.index, Failure(EngineFailed))
        case Some(text) => Generated(db.index, Success(text))
  }

  /** With the token "0" the answer does not depend on the index that was
      there before. */
  lemma {:induction false} ColdAnswerIgnoresOldIndex(a: Index, b: Index, question: string,
                                                     urls: seq<string>, engines: Engines)
    ensures GenerateOutcome(a, question, urls, JString("0"), engines)
            == GenerateOutcome(b, question, urls, JString("0"), engines)
  {
    PurgeFirst(a, b, urls, engines);
  }

  /** The body of a POST to /generate as the handler sees it: not JSON
      (`request.is_json` false), JSON that does not decode, or a decoded
      value, which is an object holding the three fields or not. */
  datatype GenerateRequest =
    | NotJson
    | MalformedJson
    | NotAnObject
    | Fields(command: Option<string>, urls: Option<seq<string>>, token: Option<JsonScalar>)

  /** What the client gets: `{'response': ...}` with status 200, Flask's 400
      for a body that does not decode, or a 500 for any exception. */
  datatype GenerateReply = Response200(response: string) | BadRequest400 | Error500

  /** The three fields the handler reads, when all are present. */
  predicate Complete(req: GenerateRequest)
  {
    req.Fields? && req.command.Some? && req.urls.Some? && req.token.Some?
  }

  datatype Handled = Handled(index: Index, reply: GenerateReply)

  /** The /generate handler as a value: `command`, `urls` and `token` become
      `generate`'s question, urls and token; its answer is wrapped as
      `{'response': ...}`, and any exception is a 500. */
  function Handle(index: Index, req: GenerateRequest, engines: Engines): (h: Handled)
    ensures req == MalformedJson ==> h == Handled(index, BadRequest400)
    ensures !Complete(req) && req != MalformedJson ==> h == Handled(index, Error500)
    ensures Complete(req) ==>
              h.index == GenerateOutcome(index, req.command.value, req.urls.value, req.token.value, engines).index
    ensures h.reply.Response200? ==>
              Complete(req) &&
              GenerateOutcome(index, req.command.value, req.urls.value, req.token.value, engines).result
                == Success(h.reply.response)
    ensures Complete(req) &&
            GenerateOutcome(index, req.command.value, req.urls.value, req.token.value, engines).result.Success? ==>
              h.reply.Response200?
    ensures Complete(req) &&
            GenerateOutcome(index, req.command.value, req.urls.value, req.token.value, engines).result.Failure? ==>
              h.reply == Error500
  {
    if req == MalformedJson then Handled(index, BadRequest400)
    else if !Complete(req) then Handled(index, Error500)
    else
      var g := GenerateOutcome(index, req.command.value, req.urls.value, req.token.value, engines);
      Handled(g.index, if g.result.Success? then Response200(g.result.value) else Error500)
  }

  /** The directory the long-lived vector store sits in; each request makes a
      fresh `Chat`, but the directory outlives it. */
  class Chat {
    var vectordb: Index
    const engines: Engines

    constructor (existing: Index, engines: Engines)
      ensures vectordb == existing && this.engines == engines
    {
      vectordb := existing;
      this.engines := engines;
    }

    method CreateDb(urls: seq<string>) returns (error: Option<RagError>)
      modifies this
      ensures vectordb == CreateDbOutcome(old(vectordb), urls, engines).index
      ensures error == CreateDbOutcome(old(vectordb), urls, engines).error
    {
      vectordb := NoIndex;
      var docs := engines.scrape(urls);
      if docs.None? {
        return Some(ScrapeFailed);
      }
      if docs.value != [] {
        var chunks := engines.split(docs.value);
        if chunks.None? {
          return Some(ValueError);
        }
        var stored := engines.persist(chunks.value);
        if stored.PersistFailed? {
          vectordb := stored.leftOver;
          return Some(ValueError);
        }
        vectordb := Built(chunks.value);
      }
      error := None;
    }

    /** The loop of `generate` that copies each document's text into the
        list that is then joined. */
    method CollectContext(docs: seq<Doc>) returns (context: string)
      ensures context == Context(docs)
    {
      var parts: seq<string> := [];
      for i := 0 to |docs|
        invariant parts == PageContents(docs[..i])
      {
        assert docs[..i + 1] == docs[..i] + [docs[i]];
        parts := parts + [docs[i].pageContent];
      }
      assert docs[..|docs|] == docs;
      context := Join(parts, "\n\n");
    }

    method Generate(question: string, urls: seq<string>, token: JsonScalar)
      returns (result: Result<string, RagError>)
      modifies this
      ensures vectordb == GenerateOutcome(old(vectordb), question, urls, token, engines).index
      ensures result == GenerateOutcome(old(vectordb), question, urls, token, engines).result
    {
      if token == JString("0") {
        var error := CreateDb(urls);
        if error.Some? {
          return Failure(error.value);
        }
      }
      var docs := engines.retrieve(vectordb, question);
      if docs.None? {
        return Failure(EngineFailed);
      }
      var context := CollectContext(docs.value);
      var text := engines.answer(context, question);
      if text.None? {
        return Failure(EngineFailed);
      }
      result := Success(text.value);
    }

    /** The /generate handler. */
    method HandleGenerate(req: GenerateRequest) returns (reply: GenerateReply)
      modifies this
      ensures vectordb == Handle(old(vectordb), req, engines).index
      ensures reply == Handle(old(vectordb), req, engines).reply
    {
      if req == MalformedJson {
        return BadRequest400;
      }
      if !Complete(req) {
        // json_data is None, or not a dictionary, or a key is missing
        return Error500;
      }
      var result := Generate(req.command.value, req.urls.value, req.token.value);
      if result.Failure? {
        return Error500;
      }
      reply := Response200(result.value);
    }
  }
}
