/** Printed JSON objects are records in the log tailer's sense: they tear cleanly. */
module LogRecords {
  import opened JsonText
  import opened JsonTorn
  import JsonExtract
  import JsonScan
  import opened LogTailer

  /**
   * An object on its own line, read as the same event whatever whitespace follows it, is a record
   * body for the tailer.
   */
  lemma PrintedObjectIsRecord<Id, E>(classify: string -> Kind<Id>, of: Id -> E, v: Json, e: E)
    requires ReadsJson(classify) && Ok(v) && v.Obj?
    requires forall w :: AllWs(w) ==> classify(Print(v) + w).Event? && of(classify(Print(v) + w).id) == e
    ensures RecordBody(classify, of, Print(v), e)
  {
    forall k: nat, w | 0 < k < |Print(v)| && AllWs(w) ensures classify(Print(v)[k..] + w).Garbage? {
      CutAtIsGarbage(classify, v, Print(v), k, w);
    }
    JsonScan.ObjectScan(v, 0);
    EveryCutIsGarbage(classify, of, Print(v), e);
  }

  lemma CutAtIsGarbage<Id>(classify: string -> Kind<Id>, v: Json, body: string, k: nat, w: string)
    requires ReadsJson(classify) && Ok(v) && v.Obj? && body == Print(v) && 0 < k < |body| && AllWs(w)
    ensures classify(body[k..] + w).Garbage?
  {
    assert body == body[..k] + body[k..];
    CutIsGarbage(classify, v, body[..k], body[k..], w);
  }

  lemma CutIsGarbage<Id>(classify: string -> Kind<Id>, v: Json, p: string, q: string, w: string)
    requires ReadsJson(classify) && Ok(v) && v.Obj? && Print(v) == p + q && p != "" && q != "" && AllWs(w)
    ensures classify(q + w).Garbage?
  {
    SuffixDoesNotParse(v, p, q);
    JsonScan.ObjectScan(v, 0);
    assert q[|q| - 1] == Print(v)[|Print(v)| - 1] == '}';
    TrailingWs(q, w);
  }

  lemma EveryCutIsGarbage<Id, E>(classify: string -> Kind<Id>, of: Id -> E, body: string, e: E)
    requires body != "" && body[|body| - 1] == '}'
    requires forall w :: AllWs(w) ==> classify(body + w).Event? && of(classify(body + w).id) == e
    requires forall k, w :: 0 < k < |body| && AllWs(w) ==> classify(body[k..] + w).Garbage?
    ensures RecordBody(classify, of, body, e)
  {
  }

  // ----- the two kinds of identity

  /** An `id` the writer gave, or the digest of the line; digests do not collide. */
  datatype Identity = Given(id: string) | Digest(line: string)

  /** The event behind an identity: a digest stands for its line, whatever ends that line. */
  function EventOf(identity: Identity): Identity {
    match identity
    case Given(id) => Given(id)
    case Digest(line) => Digest(JsonExtract.StripRight(line))
  }

  lemma {:induction false} StripsEnd(body: string, w: string)
    requires body != "" && !JsonExtract.IsSpace(body[|body| - 1]) && AllWs(w)
    ensures JsonExtract.StripRight(body + w) == body
    decreases |w|
  {
    if w == "" {
      assert body + w == body;
    } else {
      var v := w[..|w| - 1];
      StripsEnd(body, v);
      assert (body + w)[..|body + w| - 1] == body + v;
    }
  }

  /**
   * The receiver writes its own envelope without an `id`, so that each of its lines goes by its digest:
   * such a line is a record too, and the event is the same with and without its newline.
   */
  lemma EnvelopeIsRecord(classify: string -> Kind<Identity>, v: Json)
    requires ReadsJson(classify) && Ok(v) && v.Obj?
    requires forall w :: AllWs(w) ==> classify(Print(v) + w) == Event(Digest(Print(v) + w))
    ensures RecordBody(classify, EventOf, Print(v), Digest(Print(v)))
  {
    JsonScan.ObjectScan(v, 0);
    forall w | AllWs(w) ensures EventOf(Digest(Print(v) + w)) == Digest(Print(v)) { StripsEnd(Print(v), w); }
    PrintedObjectIsRecord(classify, EventOf, v, Digest(Print(v)));
  }
}
