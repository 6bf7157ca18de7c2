/**
 The inference pipelines' effects on the vector and object stores
 (src/app/services/pipelines.py), with deterministic providers.

 A pipeline first works out, from the job alone, what it will write: a `Plan`.
 `Run` then writes it, and may be cut anywhere: between two calls, in the middle
 of an upsert, or after the last write but before its reply. Re-executing a job
 after any such history leaves the stores as one clean run would.
 */
module Pipelines {
  import opened Wrappers
  import opened Jobs
  import opened Text
  import opened Messages
  import opened Chunking
  import opened Similarity
  import opened VectorStore

  /** The ports a pipeline uses, as deterministic functions. */
  datatype Context = Context(
    search: (string, int) -> seq<string>,
    embed: string -> Vec,
    complete: string -> string,
    render: Json -> string,
    bucket: string)

  /** What is written to the object store, before JSON rendering. */
  datatype Artifact =
    | Manifest(jobId: string, documentId: string, chunkCount: nat, namespace: string, chunks: seq<(nat, nat, nat)>)
    | Answer(jobId: string, query: string, answer: string, context: seq<string>, retrievedIds: seq<string>)

  datatype Stores = Stores(vectors: map<string, Bucket>, objects: map<string, Artifact>)

  /** The writes of one run: items into a namespace, then an artifact computed from that namespace's bucket. */
  datatype Plan = Plan(namespace: string, items: seq<Item>, key: string, artifact: Bucket -> Artifact)

  /** The two runs share neither namespace nor key. */
  predicate Apart(p: Plan, q: Plan) {
    p.namespace != q.namespace && p.key != q.key
  }

  // ---------------------------------------------------------------- payloads

  function RequireStr(p: Payload, key: string): Result<string, string> {
    if key in p && p[key].JText? then Ok(p[key].text) else Err("payload field must be a string")
  }

  function OptionalInt(p: Payload, key: string, default: int): Result<int, string> {
    if key !in p then Ok(default)
    else match p[key]
         case JInt(n) => Ok(n)
         case JFloat(x) => if x == x.Floor as real then Ok(x.Floor) else Err("payload field must be an int")
         case _ => Err("payload field must be an int")
  }

  function Rendered(ctx: Context, v: Json): string {
    if v.JText? then v.text else ctx.render(v)
  }

  function ResultKey(job: Job, suffix: string): string {
    "results/" + JobTypeText(job.jobType) + "/" + UuidText(job.id) + suffix
  }

  function RagPrompt(query: string, context: seq<string>): string {
    if context == [] then query
    else "Context:\n" + Join(context) + "\n\nQuestion: " + query + "\n\nAnswer:"
  }

  function Join(texts: seq<string>): string {
    if texts == [] then "" else if |texts| == 1 then texts[0] else texts[0] + "\n\n" + Join(texts[1..])
  }

  // ------------------------------------------------------------------- plans

  function ChunkItem(ctx: Context, docId: string, c: Chunk): Item {
    Item(docId + ":chunk:" + Decimal(c.index), ctx.embed(c.text),
         map["chunk_index" := JInt(c.index), "start" := JInt(c.start), "end" := JInt(c.end)])
  }

  function ChunkItems(ctx: Context, docId: string, chunks: seq<Chunk>): seq<Item> {
    seq(|chunks|, i requires 0 <= i < |chunks| => ChunkItem(ctx, docId, chunks[i]))
  }

  function Offsets(chunks: seq<Chunk>): seq<(nat, nat, nat)> {
    seq(|chunks|, i requires 0 <= i < |chunks| => (chunks[i].index, chunks[i].start, chunks[i].end))
  }

  function DocumentId(ctx: Context, job: Job): string {
    if "document_id" in job.payload then Rendered(ctx, job.payload["document_id"]) else UuidText(job.id)
  }

  /** The chunks of the document a payload carries. */
  function DocumentChunks(p: Payload): Result<seq<Chunk>, string> {
    var text := RequireStr(p, "text");
    var size := OptionalInt(p, "chunk_size", 512);
    var overlap := OptionalInt(p, "chunk_overlap", 64);
    if text.Err? then Err(text.error)
    else if size.Err? then Err(size.error)
    else if overlap.Err? then Err(overlap.error)
    else if !ValidParams(size.value, overlap.value) then Err("bad chunk parameters")
    else Ok(WindowsOf(Strip(text.value), size.value, overlap.value))
  }

  function EmbedPlan(ctx: Context, job: Job): Result<Plan, string> {
    var found := DocumentChunks(job.payload);
    if found.Err? then Err(found.error)
    else
      var docId, chunks := DocumentId(ctx, job), found.value;
      var manifest := Manifest(UuidText(job.id), docId, |chunks|, "doc:" + docId, Offsets(chunks));
      Ok(Plan("doc:" + docId, ChunkItems(ctx, docId, chunks), ResultKey(job, "-manifest.json"),
        (b: Bucket) => manifest))
  }

  function SnippetItem(ctx: Context, snippet: string, i: nat): Item {
    Item("snip:" + Decimal(i), ctx.embed(snippet), map["text" := JText(snippet)])
  }

  function SnippetItems(ctx: Context, snippets: seq<string>): seq<Item> {
    seq(|snippets|, i requires 0 <= i < |snippets| => SnippetItem(ctx, snippets[i], i))
  }

  /** The nearest snippets; a bucket that is no dict does not occur. */
  function Retrieve(q: Vec, b: Bucket, topK: int): seq<Match> {
    if Listed(b) then Slice(Ranking(q, b), topK) else []
  }

  function ContextTexts(ctx: Context, ms: seq<Match>): seq<string> {
    if ms == [] then []
    else (if "text" in ms[0].metadata then [Rendered(ctx, ms[0].metadata["text"])] else []) + ContextTexts(ctx, ms[1..])
  }

  function AnswerFrom(ctx: Context, job: Job, query: string, ms: seq<Match>): Artifact {
    var context := ContextTexts(ctx, ms);
    Answer(UuidText(job.id), query, ctx.complete(RagPrompt(query, context)), context,
           seq(|ms|, i requires 0 <= i < |ms| => ms[i].id))
  }

  function RagPlan(ctx: Context, job: Job): Result<Plan, string> {
    var query := RequireStr(job.payload, "query");
    var topK := OptionalInt(job.payload, "top_k", 3);
    if query.Err? then Err(query.error)
    else if topK.Err? then Err(topK.error)
    else
      var q, k := query.value, topK.value;
      var items := SnippetItems(ctx, ctx.search(q, k * 2));
      Ok(Plan("job:" + UuidText(job.id), items, ResultKey(job, ".json"),
              (b: Bucket) => AnswerFrom(ctx, job, q, if items == [] then [] else Retrieve(ctx.embed(q), b, k))))
  }

  /** The registry: one pipeline per job type. */
  function PlanOf(ctx: Context, job: Job): Result<Plan, string> {
    match job.jobType
    case RagQuery => RagPlan(ctx, job)
    case EmbedDocument => EmbedPlan(ctx, job)
  }

  // -------------------------------------------------------------------- runs

  function BucketIn(st: Stores, namespace: string): Bucket {
    if namespace in st.vectors then st.vectors[namespace] else EMPTY
  }

  /** What a run writes: the namespace's new bucket and the artifact, if it gets that far. */
  datatype Effect = Effect(bucket: Option<Bucket>, artifact: Option<Artifact>)

  /**
   The effect of a run on a namespace holding `b`, cut after `n` item writes. Past
   the last item the run is complete. Without items there is no upsert call at all.
   */
  function EffectOf(plan: Plan, b: Bucket, n: nat): Effect {
    var k := if n <= |plan.items| then n else |plan.items|;
    var b' := PutAll(b, plan.items[..k]);
    Effect(if k == 0 then None else Some(b'), if n <= |plan.items| then None else Some(plan.artifact(b')))
  }

  function Write(st: Stores, plan: Plan, e: Effect): Stores {
    Stores(if e.bucket.Some? then st.vectors[plan.namespace := e.bucket.value] else st.vectors,
           if e.artifact.Some? then st.objects[plan.key := e.artifact.value] else st.objects)
  }

  function Partial(st: Stores, plan: Plan, n: nat): Stores {
    Write(st, plan, EffectOf(plan, BucketIn(st, plan.namespace), n))
  }

  function Complete(st: Stores, plan: Plan): Stores {
    Partial(st, plan, |plan.items| + 1)
  }

  function PartialRuns(st: Stores, plan: Plan, cuts: seq<nat>): Stores
    decreases |cuts|
  {
    if cuts == [] then st else PartialRuns(Partial(st, plan, cuts[0]), plan, cuts[1..])
  }

  // ------------------------------------------------------------ main results

  /** A later complete effect is the same after a cut run as before it. */
  lemma EffectAbsorbs(plan: Plan, b: Bucket, n: nat)
    ensures var e := EffectOf(plan, b, n);
            var b1 := if e.bucket.Some? then e.bucket.value else b;
            EffectOf(plan, b1, |plan.items| + 1) == EffectOf(plan, b, |plan.items| + 1)
  {
    var k := if n <= |plan.items| then n else |plan.items|;
    assert plan.items[..|plan.items|] == plan.items && plan.items[..0] == [];
    UpsertAbsorbs(b, plan.items, k);
  }

  /** A complete effect overwrites whatever a cut run of the same plan wrote. */
  lemma WriteAbsorbs(st: Stores, plan: Plan, e: Effect, f: Effect)
    requires (e.bucket.Some? ==> f.bucket.Some?) && f.artifact.Some?
    ensures Write(Write(st, plan, e), plan, f) == Write(st, plan, f)
  {
    var a, b := Write(Write(st, plan, e), plan, f), Write(st, plan, f);
    assert a.vectors == b.vectors;
    assert a.objects == b.objects;
  }

  lemma CompleteAbsorbs(st: Stores, plan: Plan, n: nat)
    ensures Complete(Partial(st, plan, n), plan) == Complete(st, plan)
  {
    var b := BucketIn(st, plan.namespace);
    EffectAbsorbs(plan, b, n);
    WriteAbsorbs(st, plan, EffectOf(plan, b, n), EffectOf(plan, b, |plan.items| + 1));
  }

  /** Any number of cut runs followed by a complete one leaves the stores as one complete run would. */
  lemma {:induction false} ReExecutionIsAbsorbed(st: Stores, plan: Plan, cuts: seq<nat>)
    ensures Complete(PartialRuns(st, plan, cuts), plan) == Complete(st, plan)
    decreases |cuts|
  {
    if cuts != [] {
      ReExecutionIsAbsorbed(Partial(st, plan, cuts[0]), plan, cuts[1..]);
      CompleteAbsorbs(st, plan, cuts[0]);
    }
  }

  lemma WritesCommute(st: Stores, p: Plan, e: Effect, q: Plan, f: Effect)
    requires Apart(p, q)
    ensures Write(Write(st, p, e), q, f) == Write(Write(st, q, f), p, e)
  {
    var a, b := Write(Write(st, p, e), q, f), Write(Write(st, q, f), p, e);
    assert a.vectors == b.vectors;
    assert a.objects == b.objects;
  }

  /** Runs of jobs that share neither namespace nor key do not see each other, wherever they are cut. */
  lemma RunsCommute(st: Stores, p: Plan, n: nat, q: Plan, m: nat)
    requires Apart(p, q)
    ensures Partial(Partial(st, p, n), q, m) == Partial(Partial(st, q, m), p, n)
  {
    WritesCommute(st, p, EffectOf(p, BucketIn(st, p.namespace), n), q, EffectOf(q, BucketIn(st, q.namespace), m));
  }

  // -------------------------------------------------------------------- keys

  function Suffix(t: JobType): string {
    match t
    case RagQuery => ".json"
    case EmbedDocument => "-manifest.json"
  }

  lemma UuidTextLength(u: nat)
    ensures |UuidText(u)| == 36
  {
  }

  /** Two texts with heads of one length that agree as wholes agree in both parts. */
  lemma SplitEqual(a: string, b: string, c: string, d: string)
    requires |a| == |c| && a + b == c + d
    ensures a == c && b == d
  {
    assert (a + b)[..|a|] == a && (c + d)[..|c|] == c;
    assert (a + b)[|a|..] == b && (c + d)[|c|..] == d;
  }

  /** No two jobs write the same object. */
  lemma ResultKeysNeverCollide(a: Job, b: Job)
    requires ResultKey(a, Suffix(a.jobType)) == ResultKey(b, Suffix(b.jobType))
    ensures a.id == b.id && a.jobType == b.jobType
  {
    KeyParts(a);
    KeyParts(b);
    UuidTextLength(a.id);
    UuidTextLength(b.id);
    SplitEqual("results/", KeyTail(a), "results/", KeyTail(b));
    assert KeyTail(a)[0] == JobTypeText(a.jobType)[0] && KeyTail(b)[0] == JobTypeText(b.jobType)[0];
    SplitEqual(JobTypeText(a.jobType) + "/", UuidText(a.id) + Suffix(a.jobType), JobTypeText(b.jobType) + "/",
      UuidText(b.id) + Suffix(b.jobType));
    SplitEqual(UuidText(a.id), Suffix(a.jobType), UuidText(b.id), Suffix(b.jobType));
    UuidFits(a.id);
    UuidFits(b.id);
    UuidRoundTrip(a.id);
    UuidRoundTrip(b.id);
  }

  function KeyTail(job: Job): string {
    JobTypeText(job.jobType) + "/" + (UuidText(job.id) + Suffix(job.jobType))
  }

  lemma KeyParts(job: Job)
    ensures ResultKey(job, Suffix(job.jobType)) == "results/" + KeyTail(job)
  {
  }

  // ----------------------------------------------------------- single writes

  /** One write of a run: its item number `at`, or its artifact after the last item. */
  datatype Act = Act(plan: Plan, at: nat)

  function ActEffect(w: Act, b: Bucket): Effect {
    if w.at < |w.plan.items| then Effect(Some(Put(b, w.plan.items[w.at])), None)
    else Effect(None, Some(w.plan.artifact(b)))
  }

  function Perform(st: Stores, w: Act): Stores {
    Write(st, w.plan, ActEffect(w, BucketIn(st, w.plan.namespace)))
  }

  function PerformAll(st: Stores, ws: seq<Act>): Stores
    decreases |ws|
  {
    if ws == [] then st else Perform(PerformAll(st, ws[..|ws| - 1]), ws[|ws| - 1])
  }

  lemma {:induction false} PerformConcat(st: Stores, a: seq<Act>, b: seq<Act>)
    ensures PerformAll(st, a + b) == PerformAll(PerformAll(st, a), b)
    decreases |b|
  {
    if b == [] {
      assert a + b == a;
    } else {
      assert (a + b)[..|a + b| - 1] == a + b[..|b| - 1];
      PerformConcat(st, a, b[..|b| - 1]);
    }
  }

  /** The writes of a run cut after `n` of them. */
  function RunActs(plan: Plan, n: nat): (ws: seq<Act>)
    ensures |ws| == if n <= |plan.items| then n else |plan.items| + 1
    ensures forall i :: 0 <= i < |ws| ==> ws[i] == Act(plan, i)
  {
    seq(if n <= |plan.items| then n else |plan.items| + 1, i requires 0 <= i => Act(plan, i))
  }

  lemma RunActsAppend(plan: Plan, n: nat)
    requires n <= |plan.items|
    ensures RunActs(plan, n + 1) == RunActs(plan, n) + [Act(plan, n)]
  {
  }

  lemma NoActs(st: Stores, plan: Plan)
    ensures RunActs(plan, 0) == [] && Partial(st, plan, 0) == st
  {
  }

  /** A cut run is its writes, one by one. */
  lemma {:induction false} RunIsItsActs(st: Stores, plan: Plan, n: nat)
    requires n <= |plan.items| + 1
    ensures PerformAll(st, RunActs(plan, n)) == Partial(st, plan, n)
  {
    if n == 0 {
      NoActs(st, plan);
    } else {
      RunIsItsActs(st, plan, n - 1);
      RunActsAppend(plan, n - 1);
      PerformConcat(st, RunActs(plan, n - 1), [Act(plan, n - 1)]);
      LastAct(Partial(st, plan, n - 1), Act(plan, n - 1));
      NextAct(st, plan, n - 1);
    }
  }

  /** Two effects of one plan, the later over the earlier. */
  function Over(e: Effect, f: Effect): Effect {
    Effect(if f.bucket.Some? then f.bucket else e.bucket, if f.artifact.Some? then f.artifact else e.artifact)
  }

  lemma WriteTwice(st: Stores, plan: Plan, e: Effect, f: Effect)
    ensures Write(Write(st, plan, e), plan, f) == Write(st, plan, Over(e, f))
  {
    var a, b := Write(Write(st, plan, e), plan, f), Write(st, plan, Over(e, f));
    assert a.vectors == b.vectors;
    assert a.objects == b.objects;
  }

  lemma NextEffect(plan: Plan, b: Bucket, n: nat)
    requires n <= |plan.items|
    ensures EffectOf(plan, b, n + 1) == Over(EffectOf(plan, b, n), ActEffect(Act(plan, n), PutAll(b, plan.items[..n])))
  {
    if n < |plan.items| {
      assert plan.items[..n + 1][..n] == plan.items[..n];
    }
  }

  lemma NextAct(st: Stores, plan: Plan, n: nat)
    requires n <= |plan.items|
    ensures Perform(Partial(st, plan, n), Act(plan, n)) == Partial(st, plan, n + 1)
  {
    var b := BucketIn(st, plan.namespace);
    var e := EffectOf(plan, b, n);
    assert BucketIn(Write(st, plan, e), plan.namespace) == PutAll(b, plan.items[..n]);
    NextEffect(plan, b, n);
    WriteTwice(st, plan, e, ActEffect(Act(plan, n), PutAll(b, plan.items[..n])));
  }

  /** Runs of one plan, cut at the given points, one after the other. */
  function Runs(plan: Plan, cuts: seq<nat>): seq<Act> {
    if cuts == [] then [] else RunActs(plan, cuts[0]) + Runs(plan, cuts[1..])
  }

  lemma {:induction false} RunsAreTheirActs(st: Stores, plan: Plan, cuts: seq<nat>)
    ensures PerformAll(st, Runs(plan, cuts)) == PartialRuns(st, plan, cuts)
    decreases |cuts|
  {
    if cuts != [] {
      var n := if cuts[0] <= |plan.items| then cuts[0] else |plan.items| + 1;
      assert RunActs(plan, cuts[0]) == RunActs(plan, n) && Partial(st, plan, cuts[0]) == Partial(st, plan, n);
      RunIsItsActs(st, plan, n);
      PerformConcat(st, RunActs(plan, cuts[0]), Runs(plan, cuts[1..]));
      RunsAreTheirActs(Partial(st, plan, cuts[0]), plan, cuts[1..]);
    }
  }

  // ----------------------------------------------------- merged write sequences

  /** The writes of the plan, and those of the others. */
  ghost function Own(ws: seq<Act>, plan: Plan): seq<Act>
    decreases |ws|
  {
    if ws == [] then [] else Own(ws[..|ws| - 1], plan) + if ws[|ws| - 1].plan == plan then [ws[|ws| - 1]] else []
  }

  ghost function Others(ws: seq<Act>, plan: Plan): seq<Act>
    decreases |ws|
  {
    if ws == [] then [] else Others(ws[..|ws| - 1], plan) + if ws[|ws| - 1].plan == plan then [] else [ws[|ws| - 1]]
  }

  lemma ActsCommute(st: Stores, a: Act, b: Act)
    requires Apart(a.plan, b.plan)
    ensures Perform(Perform(st, a), b) == Perform(Perform(st, b), a)
  {
    WritesCommute(st, a.plan, ActEffect(a, BucketIn(st, a.plan.namespace)), b.plan,
      ActEffect(b, BucketIn(st, b.plan.namespace)));
  }

  lemma {:induction false} MovePast(st: Stores, own: seq<Act>, w: Act)
    requires forall i :: 0 <= i < |own| ==> Apart(own[i].plan, w.plan)
    ensures Perform(PerformAll(st, own), w) == PerformAll(Perform(st, w), own)
    decreases |own|
  {
    if own != [] {
      var before, last := own[..|own| - 1], own[|own| - 1];
      ActsCommute(PerformAll(st, before), last, w);
      MovePast(st, before, w);
    }
  }

  lemma {:induction false} OwnIsOwn(ws: seq<Act>, plan: Plan)
    ensures forall i :: 0 <= i < |Own(ws, plan)| ==> Own(ws, plan)[i].plan == plan
    decreases |ws|
  {
    if ws != [] { OwnIsOwn(ws[..|ws| - 1], plan); }
  }

  /** However the writes of a job and of jobs apart from it are merged, it is as if the others had all come first. */
  lemma {:induction false} MergeSeparates(st: Stores, ws: seq<Act>, plan: Plan)
    requires forall i :: 0 <= i < |ws| ==> ws[i].plan == plan || Apart(plan, ws[i].plan)
    ensures PerformAll(st, ws) == PerformAll(PerformAll(st, Others(ws, plan)), Own(ws, plan))
    decreases |ws|
  {
    if ws != [] {
      var before, last := ws[..|ws| - 1], ws[|ws| - 1];
      var others := PerformAll(st, Others(before, plan));
      MergeSeparates(st, before, plan);
      if last.plan == plan {
        PerformConcat(others, Own(before, plan), [last]);
        LastAct(PerformAll(others, Own(before, plan)), last);
        assert Others(ws, plan) == Others(before, plan);
      } else {
        OwnIsOwn(before, plan);
        MovePast(others, Own(before, plan), last);
        PerformConcat(st, Others(before, plan), [last]);
        LastAct(others, last);
        assert Own(ws, plan) == Own(before, plan);
      }
    }
  }

  lemma LastAct(st: Stores, w: Act)
    ensures PerformAll(st, [w]) == Perform(st, w)
  {
    assert [w][..0] == [];
  }

  /**
   A job's cut runs and its final complete run, merged write by write with the
   writes of jobs that share neither its namespace nor its key: the stores are as
   if it had run once, after the others.
   */
  lemma InterleavedReExecutionIsAbsorbed(st: Stores, ws: seq<Act>, plan: Plan, cuts: seq<nat>)
    requires forall i :: 0 <= i < |ws| ==> ws[i].plan == plan || Apart(plan, ws[i].plan)
    requires Own(ws, plan) == Runs(plan, cuts) + RunActs(plan, |plan.items| + 1)
    ensures PerformAll(st, ws) == Complete(PerformAll(st, Others(ws, plan)), plan)
  {
    var others := PerformAll(st, Others(ws, plan));
    MergeSeparates(st, ws, plan);
    PerformConcat(others, Runs(plan, cuts), RunActs(plan, |plan.items| + 1));
    RunsAreTheirActs(others, plan, cuts);
    RunIsItsActs(PartialRuns(others, plan, cuts), plan, |plan.items| + 1);
    ReExecutionIsAbsorbed(others, plan, cuts);
  }

  /** Every planned run writes its job's own key, in the namespace its job type prescribes. */
  lemma PlanPlaces(ctx: Context, job: Job)
    requires PlanOf(ctx, job).Ok?
    ensures PlanOf(ctx, job).value.key == ResultKey(job, Suffix(job.jobType))
    ensures PlanOf(ctx, job).value.namespace ==
            if job.jobType.RagQuery? then "job:" + UuidText(job.id) else "doc:" + DocumentId(ctx, job)
  {
  }

  /** Distinct jobs run apart, unless both embed a document and name the same one. */
  lemma DistinctJobsRunApart(ctx: Context, a: Job, b: Job)
    requires a.id != b.id && PlanOf(ctx, a).Ok? && PlanOf(ctx, b).Ok?
    ensures Apart(PlanOf(ctx, a).value, PlanOf(ctx, b).value) <==>
            !(a.jobType.EmbedDocument? && b.jobType.EmbedDocument? && DocumentId(ctx, a) == DocumentId(ctx, b))
  {
    PlanPlaces(ctx, a);
    PlanPlaces(ctx, b);
    var p, q := PlanOf(ctx, a).value, PlanOf(ctx, b).value;
    if p.key == q.key {
      ResultKeysNeverCollide(a, b);
      assert false;
    }
    if p.namespace == q.namespace {
      NamespaceTells(ctx, a, b);
    }
  }

  /** A namespace shared by two jobs is a document's, or theirs alone. */
  lemma NamespaceTells(ctx: Context, a: Job, b: Job)
    requires PlanOf(ctx, a).Ok? && PlanOf(ctx, b).Ok?
    requires PlanOf(ctx, a).value.namespace == PlanOf(ctx, b).value.namespace
    ensures a.jobType == b.jobType
    ensures if a.jobType.RagQuery? then a.id == b.id else DocumentId(ctx, a) == DocumentId(ctx, b)
  {
    PlanPlaces(ctx, a);
    PlanPlaces(ctx, b);
    var x, y := PlanOf(ctx, a).value.namespace, PlanOf(ctx, b).value.namespace;
    assert x[0] == (if a.jobType.RagQuery? then 'j' else 'd') && y[0] == if b.jobType.RagQuery? then 'j' else 'd';
    SplitEqual(x[..4], x[4..], y[..4], y[4..]);
    if a.jobType.RagQuery? {
      assert x[4..] == UuidText(a.id) && y[4..] == UuidText(b.id);
      UuidFits(a.id);
      UuidFits(b.id);
      UuidRoundTrip(a.id);
      UuidRoundTrip(b.id);
    } else {
      assert x[4..] == DocumentId(ctx, a) && y[4..] == DocumentId(ctx, b);
    }
  }

  // ------------------------------------------------------ what runs store

  /** The payload's integer field is `n`: given as an integer or an integral float, or absent and the default. */
  predicate IntField(p: Payload, key: string, default: int, n: int) {
    if key !in p then n == default else p[key] == JInt(n) || p[key] == JFloat(n as real)
  }

  /** A field is read as exactly that integer; a boolean, a text or a fraction is refused. */
  lemma OptionalIntIff(p: Payload, key: string, default: int, n: int)
    ensures OptionalInt(p, key, default) == Ok(n) <==> IntField(p, key, default, n)
    ensures OptionalInt(p, key, default).Err? <==> forall k: int :: !IntField(p, key, default, k)
  {
    var r := OptionalInt(p, key, default);
    if r.Ok? { assert IntField(p, key, default, r.value); }
  }

  lemma RequireStrIff(p: Payload, key: string, text: string)
    ensures RequireStr(p, key) == Ok(text) <==> key in p && p[key] == JText(text)
    ensures RequireStr(p, key).Err? <==> key !in p || !p[key].JText?
  {
  }

  /** A parameter or metadata value as text: strings as they are, others rendered. */
  predicate IsText(ctx: Context, v: Json, text: string) {
    match v case JText(t) => text == t case _ => text == ctx.render(v)
  }

  /** A run cut after `n` items stores these items, and no artifact; other namespaces and objects are left alone. */
  lemma PartialStores(st: Stores, plan: Plan, n: nat)
    requires n <= |plan.items|
    ensures var st' := Partial(st, plan, n);
            && st'.objects == st.objects
            && VectorStore.Stores(BucketIn(st, plan.namespace).entries, plan.items[..n],
              BucketIn(st', plan.namespace).entries)
            && (forall name :: name != plan.namespace ==> BucketIn(st', name) == BucketIn(st, name))
  {
    PutAllSays(BucketIn(st, plan.namespace), plan.items[..n]);
  }

  /** A complete run stores every item and its artifact, and leaves everything else alone. */
  lemma CompleteStores(st: Stores, plan: Plan)
    ensures var st' := Complete(st, plan);
            && VectorStore.Stores(BucketIn(st, plan.namespace).entries, plan.items,
              BucketIn(st', plan.namespace).entries)
            && (forall name :: name != plan.namespace ==> BucketIn(st', name) == BucketIn(st, name))
            && st'.objects == st.objects[plan.key := plan.artifact(BucketIn(st', plan.namespace))]
            && BucketIn(st', plan.namespace) == PutAll(BucketIn(st, plan.namespace), plan.items)
  {
    assert plan.items[..|plan.items|] == plan.items;
    PutAllSays(BucketIn(st, plan.namespace), plan.items);
  }

  lemma DecimalIsInjective(a: nat, b: nat)
    requires Decimal(a) == Decimal(b)
    ensures a == b
  {
    IntRoundTrip(a);
    IntRoundTrip(b);
  }

  /** Items with ids `prefix0`, `prefix1`, ... never overwrite one another. */
  lemma NumberedIdsAreDistinct(prefix: string, items: seq<Item>)
    requires forall i :: 0 <= i < |items| ==> items[i].id == prefix + Decimal(i)
    ensures DistinctItems(items)
  {
    forall i, j | 0 <= i < j < |items| ensures items[i].id != items[j].id {
      if items[i].id == items[j].id {
        assert (prefix + Decimal(i))[|prefix|..] == Decimal(i) && (prefix + Decimal(j))[|prefix|..] == Decimal(j);
        DecimalIsInjective(i, j);
      }
    }
  }

  lemma StoredFrom(before: map<string, Entry>, items: seq<Item>, after: map<string, Entry>, id: string)
    requires VectorStore.Stores(before, items, after) && id in after
    ensures id in before || exists i :: 0 <= i < |items| && items[i].id == id
  {
  }

  /** Distinct items stored over nothing: each has its entry, and there are no others. */
  lemma DistinctAreAllStored(before: map<string, Entry>, items: seq<Item>, after: map<string, Entry>)
    requires DistinctItems(items) && VectorStore.Stores(before, items, after)
    ensures forall i :: 0 <= i < |items| ==>
              items[i].id in after && after[items[i].id] == Entry(items[i].values, items[i].metadata)
    ensures before == map[] ==> |after| == |items|
  {
    forall i | 0 <= i < |items|
      ensures items[i].id in after && after[items[i].id] == Entry(items[i].values, items[i].metadata)
    {
      assert IsLast(items, i);
    }
    if before == map[] {
      var ids := seq(|items|, i requires 0 <= i < |items| => items[i].id);
      forall id ensures id in after.Keys <==> id in ids {
        if id in after { StoredFrom(before, items, after, id); }
        if i :| 0 <= i < |items| && items[i].id == id { assert ids[i] == id; }
      }
      DistinctCount(ids, after.Keys);
      assert |after| == |after.Keys|;
    }
  }

  /** The entry of chunk `i` of a document: its id, its text embedded, its place. */
  predicate ChunkStored(ctx: Context, docId: string, k: Chunk, i: nat, entries: map<string, Entry>) {
    var id := docId + ":chunk:" + Decimal(i);
    id in entries && entries[id] ==
      Entry(ctx.embed(k.text), map["chunk_index" := JInt(i), "start" := JInt(k.start), "end" := JInt(k.end)])
  }

  /** Exactly when a payload is a document with these chunks. */
  lemma DocumentChunksIff(p: Payload, text: string, size: int, overlap: int)
    requires "text" in p && p["text"] == JText(text)
    requires IntField(p, "chunk_size", 512, size) && IntField(p, "chunk_overlap", 64, overlap)
    ensures DocumentChunks(p).Ok? <==> size > 0 && 0 <= overlap < size
    ensures DocumentChunks(p).Ok? ==> DocumentChunks(p).value == WindowsOf(Strip(text), size, overlap)
  {
    RequireStrIff(p, "text", text);
    OptionalIntIff(p, "chunk_size", 512, size);
    OptionalIntIff(p, "chunk_overlap", 64, overlap);
  }

  /** And when it is none at all. */
  lemma NoDocument(p: Payload)
    requires "text" !in p || !p["text"].JText? || (forall n: int :: !IntField(p, "chunk_size", 512, n))
             || (forall n: int :: !IntField(p, "chunk_overlap", 64, n))
    ensures DocumentChunks(p).Err?
  {
    RequireStrIff(p, "text", "");
    OptionalIntIff(p, "chunk_size", 512, 0);
    OptionalIntIff(p, "chunk_overlap", 64, 0);
  }

  lemma ChunkItemsAreNumbered(ctx: Context, docId: string, s: string, size: nat, overlap: nat)
    requires 0 <= overlap < size
    ensures var items := ChunkItems(ctx, docId, WindowsOf(s, size, overlap));
            DistinctItems(items) && forall i :: 0 <= i < |items| ==> items[i].id == docId + ":chunk:" + Decimal(i)
  {
    var chunks := WindowsOf(s, size, overlap);
    WindowsAreChunks(s, size, overlap, chunks);
    NumberedIdsAreDistinct(docId + ":chunk:", ChunkItems(ctx, docId, chunks));
  }

  /** The job embeds this text, in windows of this size and overlap, as this document. */
  predicate IsDocument(ctx: Context, job: Job, text: string, size: int, overlap: int, docId: string) {
    && job.jobType == EmbedDocument
    && "text" in job.payload && job.payload["text"] == JText(text) && size > 0 && 0 <= overlap < size
    && IntField(job.payload, "chunk_size", 512, size) && IntField(job.payload, "chunk_overlap", 64, overlap)
    && (if "document_id" in job.payload then IsText(ctx, job.payload["document_id"], docId)
        else docId == UuidText(job.id))
  }

  lemma DocumentPlan(ctx: Context, job: Job, text: string, size: int, overlap: int, docId: string)
    requires IsDocument(ctx, job, text, size, overlap, docId)
    ensures var r, chunks := EmbedPlan(ctx, job), WindowsOf(Strip(text), size, overlap);
            && r.Ok? && r.value.namespace == "doc:" + docId && r.value.items == ChunkItems(ctx, docId, chunks)
            && r.value.key == "results/embed_document/" + UuidText(job.id) + "-manifest.json"
            && forall b: Bucket :: IsManifest(UuidText(job.id), docId, chunks, r.value.artifact(b))
  {
    DocumentChunksIff(job.payload, text, size, overlap);
    DocumentKeyForm(job);
    assert DocumentId(ctx, job) == docId;
    ManifestForm(UuidText(job.id), docId, WindowsOf(Strip(text), size, overlap));
  }

  lemma ManifestForm(jobId: string, docId: string, chunks: seq<Chunk>)
    ensures IsManifest(jobId, docId, chunks, Manifest(jobId, docId, |chunks|, "doc:" + docId, Offsets(chunks)))
  {
  }

  lemma DocumentKeyForm(job: Job)
    requires job.jobType == EmbedDocument
    ensures ResultKey(job, "-manifest.json") == "results/embed_document/" + UuidText(job.id) + "-manifest.json"
  {
    KeyPrefixes();
    KeyUnder(job, "results/" + "embed_document" + "/", "-manifest.json");
  }

  lemma QueryKeyForm(job: Job)
    requires job.jobType == RagQuery
    ensures ResultKey(job, ".json") == "results/rag_query/" + UuidText(job.id) + ".json"
  {
    KeyPrefixes();
    KeyUnder(job, "results/" + "rag_query" + "/", ".json");
  }

  lemma KeyUnder(job: Job, prefix: string, suffix: string)
    requires prefix == "results/" + JobTypeText(job.jobType) + "/"
    ensures ResultKey(job, suffix) == prefix + UuidText(job.id) + suffix
  {
  }

  lemma KeyPrefixes()
    ensures "results/" + "embed_document" + "/" == "results/embed_document/"
    ensures "results/" + "rag_query" + "/" == "results/rag_query/"
  {
  }

  /** The manifest lists every chunk by number and place. */
  predicate IsManifest(jobId: string, docId: string, chunks: seq<Chunk>, a: Artifact) {
    && a.Manifest? && a.jobId == jobId && a.documentId == docId && a.chunkCount == |chunks|
      && a.namespace == "doc:" + docId
    && |a.chunks| == |chunks|
    && forall i :: 0 <= i < |chunks| ==> a.chunks[i] == (chunks[i].index, chunks[i].start, chunks[i].end)
  }

  /** Every chunk has its entry, and over an empty namespace there is no other. */
  ghost predicate ChunksStored(ctx: Context, docId: string, chunks: seq<Chunk>, before: map<string, Entry>,
    after: map<string, Entry>) {
    && (forall i :: 0 <= i < |chunks| ==> ChunkStored(ctx, docId, chunks[i], i, after))
    && (before == map[] ==> |after| == |chunks|)
  }

  /**
   A complete document run: every chunk is stored under its own id with its text
   embedded, nothing else is in a fresh namespace, and the manifest lists them.
   */
  lemma DocumentStored(ctx: Context, job: Job, st: Stores, text: string, size: int, overlap: int, docId: string)
    requires IsDocument(ctx, job, text, size, overlap, docId)
    ensures var chunks := WindowsOf(Strip(text), size, overlap);
            && EmbedPlan(ctx, job).Ok?
            && var st' := Complete(st, EmbedPlan(ctx, job).value);
               var key := "results/embed_document/" + UuidText(job.id) + "-manifest.json";
               && ChunksStored(ctx, docId, chunks, BucketIn(st, "doc:" + docId).entries,
                 BucketIn(st', "doc:" + docId).entries)
               && key in st'.objects && IsManifest(UuidText(job.id), docId, chunks, st'.objects[key])
               && st'.objects == st.objects[key := st'.objects[key]]
  {
    DocumentPlan(ctx, job, text, size, overlap, docId);
    var plan := EmbedPlan(ctx, job).value;
    CompleteStores(st, plan);
    DocumentEntries(ctx, docId, Strip(text), size, overlap, BucketIn(st, plan.namespace).entries,
                    BucketIn(Complete(st, plan), plan.namespace).entries);
  }

  lemma DocumentEntries(ctx: Context, docId: string, s: string, size: nat, overlap: nat,
                        before: map<string, Entry>, after: map<string, Entry>)
    requires 0 <= overlap < size
    requires VectorStore.Stores(before, ChunkItems(ctx, docId, WindowsOf(s, size, overlap)), after)
    ensures ChunksStored(ctx, docId, WindowsOf(s, size, overlap), before, after)
  {
    var chunks := WindowsOf(s, size, overlap);
    var items := ChunkItems(ctx, docId, chunks);
    ChunkItemsAreNumbered(ctx, docId, s, size, overlap);
    DistinctAreAllStored(before, items, after);
    WindowsAreChunks(s, size, overlap, chunks);
    forall i | 0 <= i < |chunks| ensures ChunkStored(ctx, docId, chunks[i], i, after) {
      assert items[i].id in after;
    }
  }

  // The query pipeline: its snippets, its prompt, its answer.

  lemma {:induction false} JoinForm(texts: seq<string>, last: string)
    requires texts != []
    ensures Join([last]) == last
    ensures Join(texts + [last]) == Join(texts) + "\n\n" + last
  {
    if |texts| == 1 {
      assert (texts + [last])[1..] == [last];
    } else {
      assert (texts + [last])[1..] == texts[1..] + [last];
      JoinForm(texts[1..], last);
    }
  }

  /** The question alone, or after the retrieved context. */
  lemma PromptForm(query: string, context: seq<string>)
    ensures RagPrompt(query, []) == query
    ensures context != [] ==>
              RagPrompt(query, context) == "Context:\n" + Join(context) + "\n\nQuestion: " + query + "\n\nAnswer:"
  {
  }

  /** The context texts are those of the matches, in order. */
  lemma {:induction false} ContextAppend(ctx: Context, ms: seq<Match>, m: Match, text: string)
    requires "text" in m.metadata ==> IsText(ctx, m.metadata["text"], text)
    ensures ContextTexts(ctx, ms + [m]) == ContextTexts(ctx, ms) + if "text" in m.metadata then [text] else []
    ensures ContextTexts(ctx, []) == []
  {
    if ms == [] {
      assert [] + [m] == [m] && [m][1..] == [];
    } else {
      assert (ms + [m])[1..] == ms[1..] + [m];
      ContextAppend(ctx, ms[1..], m, text);
    }
  }

  predicate SnippetStored(ctx: Context, snippet: string, i: nat, entries: map<string, Entry>) {
    var id := "snip:" + Decimal(i);
    id in entries && entries[id] == Entry(ctx.embed(snippet), map["text" := JText(snippet)])
  }

  lemma SnippetEntries(ctx: Context, snippets: seq<string>, before: map<string, Entry>, after: map<string, Entry>)
    requires VectorStore.Stores(before, SnippetItems(ctx, snippets), after)
    ensures forall i :: 0 <= i < |snippets| ==> SnippetStored(ctx, snippets[i], i, after)
    ensures before == map[] ==> |after| == |snippets|
  {
    var items := SnippetItems(ctx, snippets);
    NumberedIdsAreDistinct("snip:", items);
    DistinctAreAllStored(before, items, after);
    forall i | 0 <= i < |snippets| ensures SnippetStored(ctx, snippets[i], i, after) {
      assert items[i].id in after;
    }
  }

  /** The answer made of these matches: the prompt completed, with the context and ids it rests on. */
  predicate AnswerMade(ctx: Context, job: Job, query: string, ms: seq<Match>, a: Artifact) {
    && a.Answer? && a.jobId == UuidText(job.id) && a.query == query && a.context == ContextTexts(ctx, ms)
    && |a.retrievedIds| == |ms| && (forall i :: 0 <= i < |ms| ==> a.retrievedIds[i] == ms[i].id)
    && a.answer == ctx.complete(if a.context == [] then query
                                else "Context:\n" + Join(a.context) + "\n\nQuestion: " + query + "\n\nAnswer:")
  }

  /** The job asks this question, for this many matches. */
  predicate IsQuery(job: Job, query: string, topK: int) {
    && job.jobType == RagQuery
    && "query" in job.payload && job.payload["query"] == JText(query) && IntField(job.payload, "top_k", 3, topK)
  }

  lemma QueryPlan(ctx: Context, job: Job, query: string, topK: int)
    requires IsQuery(job, query, topK)
    ensures var r, snippets := RagPlan(ctx, job), ctx.search(query, topK * 2);
            && r.Ok? && r.value.namespace == "job:" + UuidText(job.id) && r.value.items == SnippetItems(ctx, snippets)
            && r.value.key == "results/rag_query/" + UuidText(job.id) + ".json"
            && forall b: Bucket ::
                 r.value.artifact(b) == AnswerFrom(ctx, job, query,
                                                if snippets == [] then [] else Retrieve(ctx.embed(query), b, topK))
  {
    RequireStrIff(job.payload, "query", query);
    OptionalIntIff(job.payload, "top_k", 3, topK);
    QueryKeyForm(job);
  }

  lemma AnswerIsMade(ctx: Context, job: Job, query: string, ms: seq<Match>)
    ensures AnswerMade(ctx, job, query, ms, AnswerFrom(ctx, job, query, ms))
  {
  }

  ghost predicate SnippetsStored(ctx: Context, snippets: seq<string>, before: map<string, Entry>,
    after: map<string, Entry>) {
    && (forall i :: 0 <= i < |snippets| ==> SnippetStored(ctx, snippets[i], i, after))
    && (before == map[] ==> |after| == |snippets|)
  }

  /** The matches an answer rests on: the best `topK` of the entries, or none if nothing was found. */
  ghost predicate Rests(ctx: Context, query: string, topK: int, snippets: seq<string>, entries: map<string, Entry>,
    ms: seq<Match>) {
    if snippets == [] then ms == [] else Answers(ctx.embed(query), topK, entries, ms)
  }

  /**
   A complete query run: twice as many snippets as asked for are searched and
   stored under their own ids; the answer rests on the best `topK` of the entries.
   */
  lemma QueryStored(ctx: Context, job: Job, st: Stores, query: string, topK: int) returns (ms: seq<Match>)
    requires IsQuery(job, query, topK) && Listed(BucketIn(st, "job:" + UuidText(job.id)))
    ensures RagPlan(ctx, job).Ok?
    ensures var st', name := Complete(st, RagPlan(ctx, job).value), "job:" + UuidText(job.id);
            var snippets, entries := ctx.search(query, topK * 2), BucketIn(st', name).entries;
            SnippetsStored(ctx, snippets, BucketIn(st, name).entries, entries)
            && Rests(ctx, query, topK, snippets, entries, ms)
    ensures var st', key := Complete(st, RagPlan(ctx, job).value), "results/rag_query/" + UuidText(job.id) + ".json";
            key in st'.objects && AnswerMade(ctx, job, query, ms, st'.objects[key])
            && st'.objects == st.objects[key := st'.objects[key]]
  {
    QueryPlan(ctx, job, query, topK);
    var snippets, plan := ctx.search(query, topK * 2), RagPlan(ctx, job).value;
    CompleteStores(st, plan);
    SnippetEntries(ctx, snippets, BucketIn(st, plan.namespace).entries,
      BucketIn(Complete(st, plan), plan.namespace).entries);
    ms := Matches(ctx, query, topK, snippets, BucketIn(Complete(st, plan), plan.namespace),
      BucketIn(st, plan.namespace), plan.items);
    AnswerIsMade(ctx, job, query, ms);
  }

  /** The query against the bucket as the run left it. */
  lemma Matches(ctx: Context, query: string, topK: int, snippets: seq<string>, b: Bucket, before: Bucket,
    items: seq<Item>)
    returns (ms: seq<Match>)
    requires Listed(before) && b == PutAll(before, items)
    ensures ms == if snippets == [] then [] else Retrieve(ctx.embed(query), b, topK)
    ensures Rests(ctx, query, topK, snippets, b.entries, ms)
  {
    ms := if snippets == [] then [] else Retrieve(ctx.embed(query), b, topK);
    QueryAnswers(ctx.embed(query), b, topK);
  }

  // ---------------------------------------------------------------- the code

  /** Reads and chunks the document; a malformed payload is an error. */
  method ReadChunks(p: Payload) returns (r: Result<seq<Chunk>, string>)
    ensures r.Ok? <==> DocumentChunks(p).Ok?
    ensures r.Ok? ==> r == DocumentChunks(p)
  {
    var document := RequireStr(p, "text");
    if document.Err? { return Err(document.error); }
    var size := OptionalInt(p, "chunk_size", 512);
    if size.Err? { return Err(size.error); }
    var overlap := OptionalInt(p, "chunk_overlap", 64);
    if overlap.Err? { return Err(overlap.error); }
    var chunks, broke := ChunkText(document.value, size.value, overlap.value);
    r := chunks;
  }

  /** The record list of the document pipeline, item by item. */
  method ChunkRecords(ctx: Context, docId: string, chunks: seq<Chunk>) returns (records: seq<Item>)
    ensures records == ChunkItems(ctx, docId, chunks)
  {
    records := [];
    for i := 0 to |chunks|
      invariant |records| == i && forall k :: 0 <= k < i ==> records[k] == ChunkItem(ctx, docId, chunks[k])
    {
      records := records + [ChunkItem(ctx, docId, chunks[i])];
    }
  }

  /** The record list of the query pipeline, item by item. */
  method SnippetRecords(ctx: Context, snippets: seq<string>) returns (records: seq<Item>)
    ensures records == SnippetItems(ctx, snippets)
  {
    records := [];
    for i := 0 to |snippets|
      invariant |records| == i && forall k :: 0 <= k < i ==> records[k] == SnippetItem(ctx, snippets[k], k)
    {
      records := records + [SnippetItem(ctx, snippets[i], i)];
    }
  }

  /** The stores and the two `run` methods, cut after `cut` item writes. */
  class Workspace {
    const store: FakeVectorStore
    var objects: map<string, Artifact>

    constructor ()
      ensures Valid() && fresh(store) && View() == Stores(map[], map[])
    {
      store := new FakeVectorStore();
      objects := map[];
    }

    ghost predicate Valid()
      reads this, store
    {
      store.Valid()
    }

    function View(): Stores
      reads this, store
    {
      Stores(store.ns, objects)
    }

    /** EmbedDocumentPipeline.run */
    method RunEmbedDocument(ctx: Context, job: Job, cut: nat) returns (r: Result<string, string>)
      requires Valid()
      modifies this, store
      ensures Valid()
      ensures match EmbedPlan(ctx, job)
              case Err(_) => r.Err? && View() == old(View())
              case Ok(plan) => View() == Partial(old(View()), plan, cut)
                               && (cut > |plan.items| ==> r == Ok("s3://" + ctx.bucket + "/" + plan.key))
    {
      var docId := DocumentId(ctx, job);
      var chunks := ReadChunks(job.payload);
      if chunks.Err? { return Err(chunks.error); }
      var records := ChunkRecords(ctx, docId, chunks.value);
      var namespace := "doc:" + docId;
      var manifest := Manifest(UuidText(job.id), docId, |chunks.value|, namespace, Offsets(chunks.value));
      var key := ResultKey(job, "-manifest.json");
      ghost var plan := EmbedPlan(ctx, job).value;
      assert plan.items == records && plan.namespace == namespace && plan.key == key;
      var stopped := IndexAndPut(plan, records, namespace, key, manifest, cut);
      r := if stopped then Err("cut") else Ok("s3://" + ctx.bucket + "/" + key);
    }

    /** The two writes of the document pipeline: the vectors, then an artifact that does not depend on them. */
    method IndexAndPut(ghost plan: Plan, records: seq<Item>, namespace: string, key: string, artifact: Artifact,
      cut: nat)
      returns (stopped: bool)
      requires Valid()
      requires plan.items == records && plan.namespace == namespace && plan.key == key
               && forall b: Bucket :: plan.artifact(b) == artifact
      modifies this, store
      ensures Valid() && View() == Partial(old(View()), plan, cut) && (stopped <==> cut <= |records|)
    {
      stopped := Index(records, namespace, cut);
      if !stopped { objects := objects[key := artifact]; }
    }

    /** RagQueryPipeline.run */
    method RunRagQuery(ctx: Context, job: Job, cut: nat) returns (r: Result<string, string>)
      requires Valid()
      modifies this, store
      ensures Valid()
      ensures match RagPlan(ctx, job)
              case Err(_) => r.Err? && View() == old(View())
              case Ok(plan) => View() == Partial(old(View()), plan, cut)
                               && (cut > |plan.items| ==> r == Ok("s3://" + ctx.bucket + "/" + plan.key))
    {
      var query := RequireStr(job.payload, "query");
      if query.Err? { return Err(query.error); }
      var topK := OptionalInt(job.payload, "top_k", 3);
      if topK.Err? { return Err(topK.error); }
      var snippets := ctx.search(query.value, topK.value * 2);
      var records := SnippetRecords(ctx, snippets);
      var namespace, key := "job:" + UuidText(job.id), ResultKey(job, ".json");
      ghost var plan := RagPlan(ctx, job).value;
      assert plan.items == records && plan.namespace == namespace && plan.key == key;
      var stopped := IndexAndAnswer(plan, ctx, job, query.value, topK.value, records, namespace, key, cut);
      r := if stopped then Err("cut") else Ok("s3://" + ctx.bucket + "/" + key);
    }

    /** Indexes the snippets, queries them, and puts the answer drawn from the nearest. */
    method IndexAndAnswer(ghost plan: Plan, ctx: Context, job: Job, query: string, topK: int,
                          records: seq<Item>, namespace: string, key: string, cut: nat)
      returns (stopped: bool)
      requires Valid()
      requires plan.items == records && plan.namespace == namespace && plan.key == key
      requires forall b: Bucket ::
                 plan.artifact(b) == AnswerFrom(ctx, job, query, if records == [] then []
                   else Retrieve(ctx.embed(query), b, topK))
      modifies this, store
      ensures Valid() && View() == Partial(old(View()), plan, cut) && (stopped <==> cut <= |records|)
    {
      stopped := Index(records, namespace, cut);
      if stopped { return; }
      var matches: seq<Match> := [];
      if records != [] {
        matches := store.Query(ctx.embed(query), topK, namespace);
      }
      objects := objects[key := AnswerFrom(ctx, job, query, matches)];
    }

    /** The upsert call, made only if there are records. */
    method Index(records: seq<Item>, namespace: string, cut: nat) returns (stopped: bool)
      requires Valid()
      modifies store
      ensures Valid() && (stopped <==> cut <= |records|)
      ensures store.ns == (var k := if cut <= |records| then cut else |records|;
                           if k == 0 then old(store.ns)
                           else old(store.ns)[namespace := PutAll(old(store.BucketOf(namespace)), records[..k])])
    {
      var k := if cut <= |records| then cut else |records|;
      if k > 0 {
        store.Upsert(records[..k], namespace);
      }
      stopped := cut <= |records|;
    }
  }
}
