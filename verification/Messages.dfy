/**
 The on-wire job pointer and its codec (src/app/adapters/broker/messages.py).
 Fields arrive as text or as UTF-8 bytes, whatever the client was set to.
 */
module Messages {
  import opened Wrappers
  import opened Jobs
  import opened Text

  datatype JobMessage = JobMessage(jobId: JobId, jobType: JobType, attempt: int)
  {
    function NextAttempt(): JobMessage { JobMessage(jobId, jobType, attempt + 1) }
  }

  function FirstDelivery(job: Job): JobMessage { JobMessage(job.id, job.jobType, 1) }

  /** A field name or value as the client hands it over. */
  datatype Wire = Str(text: string) | Raw(bytes: seq<Byte>)

  datatype DecodeError = BadUtf8 | MissingField(name: string) | BadUuid | BadJobType | BadAttempt

  function JobTypeText(t: JobType): string {
    match t
    case RagQuery => "rag_query"
    case EmbedDocument => "embed_document"
  }

  function ParseJobType(s: string): Option<JobType> {
    if s == "rag_query" then Some(RagQuery)
    else if s == "embed_document" then Some(EmbedDocument)
    else None
  }

  function ToFields(m: JobMessage): seq<(string, string)> {
    [("job_id", UuidText(m.jobId)), ("job_type", JobTypeText(m.jobType)), ("attempt", Decimal(m.attempt))]
  }

  function AsStr(w: Wire): Option<string> {
    match w
    case Str(s) => Some(s)
    case Raw(bs) => Decode(bs)
  }

  /** All fields decoded; a later field replaces an earlier one of the same name. */
  function DecodeFields(fields: seq<(Wire, Wire)>): Option<map<string, string>> {
    if fields == [] then Some(map[])
    else
      var last := fields[|fields| - 1];
      match (DecodeFields(fields[..|fields| - 1]), AsStr(last.0), AsStr(last.1))
      case (Some(d), Some(k), Some(v)) => Some(d[k := v])
      case _ => None
  }

  function Build(d: map<string, string>): Result<JobMessage, DecodeError> {
    if "job_id" !in d then Err(MissingField("job_id"))
    else match ParseUuid(d["job_id"])
         case None => Err(BadUuid)
         case Some(u) =>
           if u >= UUID_BOUND then Err(BadUuid)
           else if "job_type" !in d then Err(MissingField("job_type"))
           else match ParseJobType(d["job_type"])
                case None => Err(BadJobType)
                case Some(t) =>
                  if "attempt" !in d then Err(MissingField("attempt"))
                  else match ParseInt(d["attempt"])
                       case None => Err(BadAttempt)
                       case Some(n) => Ok(JobMessage(u, t, n))
  }

  function FromFields(fields: seq<(Wire, Wire)>): Result<JobMessage, DecodeError> {
    match DecodeFields(fields)
    case None => Err(BadUtf8)
    case Some(d) => Build(d)
  }

  /** The three fields, in order, by name and text. */
  lemma ToFieldsForm(m: JobMessage)
    ensures ToFields(m) ==
            [("job_id", UuidText(m.jobId)),
             ("job_type", match m.jobType case RagQuery => "rag_query" case EmbedDocument => "embed_document"),
             ("attempt", Decimal(m.attempt))]
  {
  }

  /** Of two fields with one name, the later counts. */
  lemma DecodeAppend(fields: seq<(Wire, Wire)>, k: Wire, v: Wire)
    requires DecodeFields(fields).Some? && AsStr(k).Some? && AsStr(v).Some?
    ensures DecodeFields(fields + [(k, v)]) == Some(DecodeFields(fields).value[AsStr(k).value := AsStr(v).value])
  {
    assert (fields + [(k, v)])[..|fields|] == fields;
  }

  /** Exactly which fields make a pointer, and which one. */
  lemma FromFieldsIff(fields: seq<(Wire, Wire)>, m: JobMessage)
    ensures FromFields(fields) == Ok(m) <==>
            && DecodeFields(fields).Some?
            && var d := DecodeFields(fields).value;
               && "job_id" in d && "job_type" in d && "attempt" in d
               && ParseUuid(d["job_id"]) == Some(m.jobId)
               && ((d["job_type"] == "rag_query" && m.jobType == RagQuery)
                   || (d["job_type"] == "embed_document" && m.jobType == EmbedDocument))
               && ParseInt(d["attempt"]) == Some(m.attempt)
  {
  }

  // ------------------------------------------------------------- round trip

  /** `w` carries `s`, as text or as bytes. */
  predicate Carries(w: Wire, s: string) {
    w == Str(s) || w == Raw(Encode(s))
  }

  /** The fields on the wire carry these names and values, each in either form. */
  predicate CarriesAll(fields: seq<(Wire, Wire)>, plain: seq<(string, string)>) {
    && |fields| == |plain|
    && forall i :: 0 <= i < |fields| ==> Carries(fields[i].0, plain[i].0) && Carries(fields[i].1, plain[i].1)
  }

  lemma CarriedText(w: Wire, s: string)
    requires Carries(w, s)
    ensures AsStr(w) == Some(s)
  {
    Utf8RoundTrip(s);
  }

  function Collect(plain: seq<(string, string)>): map<string, string> {
    if plain == [] then map[] else Collect(plain[..|plain| - 1])[plain[|plain| - 1].0 := plain[|plain| - 1].1]
  }

  lemma {:induction false} DecodeCarried(fields: seq<(Wire, Wire)>, plain: seq<(string, string)>)
    requires CarriesAll(fields, plain)
    ensures DecodeFields(fields) == Some(Collect(plain))
  {
    if fields != [] {
      var n := |fields| - 1;
      DecodeCarried(fields[..n], plain[..n]);
      CarriedText(fields[n].0, plain[n].0);
      CarriedText(fields[n].1, plain[n].1);
    }
  }

  const POINTER_FIELDS: set<string> := {"job_id", "job_type", "attempt"}

  /** Fields with other names, such as a dead letter's reason. */
  predicate Foreign(extra: seq<(string, string)>) {
    forall i :: 0 <= i < |extra| ==> extra[i].0 !in POINTER_FIELDS
  }

  lemma PointerFields(m: JobMessage)
    ensures Collect(ToFields(m)) ==
            map["job_id" := UuidText(m.jobId), "job_type" := JobTypeText(m.jobType), "attempt" := Decimal(m.attempt)]
  {
    var f := ToFields(m);
    assert f[..2] == [f[0], f[1]] && f[..2][..1] == [f[0]] && f[..2][..1][..0] == [];
    assert Collect([f[0]]) == map["job_id" := UuidText(m.jobId)];
  }

  lemma {:induction false} ExtraFields(m: JobMessage, extra: seq<(string, string)>, k: string)
    requires Foreign(extra) && k in POINTER_FIELDS
    ensures k in Collect(ToFields(m) + extra) && k in Collect(ToFields(m))
    ensures Collect(ToFields(m) + extra)[k] == Collect(ToFields(m))[k]
  {
    var all := ToFields(m) + extra;
    PointerFields(m);
    if extra == [] {
      assert all == ToFields(m);
    } else {
      var n := |extra| - 1;
      assert all[..|all| - 1] == ToFields(m) + extra[..n];
      assert all[|all| - 1] == extra[n];
      ExtraFields(m, extra[..n], k);
    }
  }

  lemma UuidFits(u: JobId)
    ensures u < Pow16(32)
  {
    assert Pow16(8) == 0x1_0000_0000 by {
      assert Pow16(4) == 0x1_0000;
    }
    Pow16Add(8, 8);
    Pow16Add(16, 16);
    assert Pow16(16) == 0x1_0000_0000_0000_0000;
  }

  lemma {:induction false} Pow16Add(a: nat, b: nat)
    ensures Pow16(a + b) == Pow16(a) * Pow16(b)
  {
    if a > 0 {
      Pow16Add(a - 1, b);
      assert 16 * (Pow16(a - 1) * Pow16(b)) == (16 * Pow16(a - 1)) * Pow16(b);
    }
  }

  lemma JobTypeRoundTrip(t: JobType)
    ensures ParseJobType(JobTypeText(t)) == Some(t)
  {
  }

  lemma BuildUndoes(m: JobMessage, d: map<string, string>)
    requires "job_id" in d && ParseUuid(d["job_id"]) == Some(m.jobId)
    requires "job_type" in d && ParseJobType(d["job_type"]) == Some(m.jobType)
    requires "attempt" in d && ParseInt(d["attempt"]) == Some(m.attempt)
    ensures Build(d) == Ok(m)
  {
  }

  /** Decoding undoes encoding, in any mix of text and bytes and with any further fields. */
  lemma FromFieldsUndoesToFields(m: JobMessage, extra: seq<(string, string)>, fields: seq<(Wire, Wire)>)
    requires Foreign(extra) && CarriesAll(fields, ToFields(m) + extra)
    ensures FromFields(fields) == Ok(m)
  {
    DecodeCarried(fields, ToFields(m) + extra);
    PointerFields(m);
    ExtraFields(m, extra, "job_id");
    ExtraFields(m, extra, "job_type");
    ExtraFields(m, extra, "attempt");
    UuidFits(m.jobId);
    UuidRoundTrip(m.jobId);
    JobTypeRoundTrip(m.jobType);
    IntRoundTrip(m.attempt);
    BuildUndoes(m, Collect(ToFields(m) + extra));
  }

  /** So no two pointers share a wire form. */
  lemma ToFieldsIsInjective(a: JobMessage, b: JobMessage)
    requires ToFields(a) == ToFields(b)
    ensures a == b
  {
    var plain := ToFields(a);
    var fields := seq(|plain|, i requires 0 <= i < |plain| => (Str(plain[i].0), Str(plain[i].1)));
    assert plain + [] == plain;
    FromFieldsUndoesToFields(a, [], fields);
    FromFieldsUndoesToFields(b, [], fields);
  }
}
