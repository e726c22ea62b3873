/** `push_to_datastore` from the schema on: the field list, the delete request, one create
    request per batch of 100 records, and the final `resource_update`, each checked against
    the status codes it accepts. The HTTP calls are replaced by the replies the server
    gives; the requests sent are recorded in order. */
module Upload {
  import opened Wrappers
  import Types
  import Cells
  import Chunking

  /** The batch size `chunky` is called with. */
  const BatchSize: nat := 100

  /** A record: a column name mapped to the cell value. */
  type Record = map<string, Cells.Value>

  /** The resource dictionary, its values taken as strings. */
  type Props = map<string, string>

  /** One entry of the `fields` list of a `datastore_create` request. */
  datatype Field = Field(id: string, typeName: string)

  datatype Request =
    | DatastoreDelete(resourceId: string)
    | DatastoreCreate(resourceId: string, fields: seq<Field>, records: seq<Record>)
    | ResourceUpdate(resource: Props)

  /** What a `requests.post` call gives back: a response with a status code, or a
      transport failure (`requests.exceptions.RequestException`). */
  datatype Reply = Responded(status: int) | TransportError

  /** The server's answers: to the delete, to the create request of each batch (by batch
      number), and to the update. */
  datatype Replies = Replies(delete: Reply, create: nat -> Reply, update: Reply)

  /** Why a push stopped: a guessed type missing from `TYPE_MAPPING` (`KeyError`), a
      resource without `id` (`KeyError`), a failed delete (`DatastorerException`, whether
      the server answered badly or not at all), or the reply that stopped a create or the
      update: a bad status raises `DatastorerException`, a transport failure lets the
      `RequestException` through. */
  datatype PushError =
    | UnmappedType(cellType: Types.CellType)
    | MissingId
    | DeleteFailed
    | CreateRejected(batch: nat, reply: Reply)
    | UpdateRejected(reply: Reply)

  /** A push either completes, having counted `count` records, or raises. */
  datatype Outcome = Pushed(count: nat) | Failed(error: PushError)

  /** The requests sent, the outcome, and the resource dictionary at the end. */
  datatype Run = Run(outcome: Outcome, sent: seq<Request>, props: Props)

  /** The delete succeeded: a non-zero status that is 200 or 404. The test for a zero
      status adds nothing: the delete is accepted exactly on a 200 or a 404. */
  predicate DeleteAccepted(r: Reply): (b: bool)
    ensures b <==> r == Responded(200) || r == Responded(404)
  {
    r.Responded? && r.status != 0 && r.status in {200, 404}
  }

  /** A create or update succeeded: a response with status 200 or 201, never a transport
      failure. A zero status is never accepted, so the swallowed zero-status check of a
      create loses nothing. */
  predicate Accepted(r: Reply): (b: bool)
    ensures b <==> r == Responded(200) || r == Responded(201)
    ensures b ==> r.status != 0
  {
    r.Responded? && r.status in {200, 201}
  }

  /** `zip(headers, guessed_type_names)` into `fields`: as many entries as the shorter
      list, pairing each header with the name of the field type in the same position. */
  function Fields(headers: seq<string>, types: seq<Types.FieldType>): (fs: seq<Field>)
    ensures |fs| == Chunking.Min(|headers|, |types|)
    ensures forall i :: 0 <= i < |fs| ==> fs[i] == Field(headers[i], Types.Name(types[i]))
  {
    if headers == [] || types == [] then []
    else [Field(headers[0], Types.Name(types[0]))] + Fields(headers[1..], types[1..])
  }

  /** The first batch, from `from` on and below `n`, whose create reply is not accepted;
      `n` when there is none. */
  function FirstRejected(create: nat -> Reply, from: nat, n: nat): (k: nat)
    requires from <= n
    ensures from <= k <= n
    ensures forall j :: from <= j < k ==> Accepted(create(j))
    ensures k < n ==> !Accepted(create(k))
    decreases n - from
  {
    if from == n then n
    else if !Accepted(create(from)) then from
    else FirstRejected(create, from + 1, n)
  }

  /** When batch `b` is the first one rejected, `FirstRejected` finds it. */
  lemma FirstRejectedAt(create: nat -> Reply, n: nat, b: nat)
    requires b < n && !Accepted(create(b))
    requires forall j :: 0 <= j < b ==> Accepted(create(j))
    ensures FirstRejected(create, 0, n) == b
  {
  }

  /** The create requests for a list of batches, one per batch in order. */
  function Creates(id: string, fields: seq<Field>, batches: seq<seq<Record>>): (rs: seq<Request>)
    ensures |rs| == |batches|
    ensures forall i :: 0 <= i < |rs| ==> rs[i] == DatastoreCreate(id, fields, batches[i])
  {
    seq(|batches|, i requires 0 <= i < |batches| => DatastoreCreate(id, fields, batches[i]))
  }

  lemma CreatesAppend(id: string, fields: seq<Field>, batches: seq<seq<Record>>, data: seq<Record>)
    ensures Creates(id, fields, batches + [data]) == Creates(id, fields, batches) + [DatastoreCreate(id, fields, data)]
  {
  }

  /** The keys `resource.update` writes before the final request: the resource is marked
      active, and the timestamp reads back as the clock reading `now`. */
  function Finalisation(now: Cells.ValidDateTime): (p: Props)
    ensures p.Keys == {"webstore_url", "webstore_last_updated"}
    ensures p["webstore_url"] == "active"
    ensures Cells.ParseIso(p["webstore_last_updated"]) == Some(now)
  {
    Cells.IsoFormatRoundTrip(now, 'T');
    map["webstore_url" := "active", "webstore_last_updated" := Cells.IsoFormat(now, 'T')]
  }

  /** What `push_to_datastore` does once the table is parsed: `headers` and `guessed` are
      the guessed header row and column types, `rows` the normalised records, `now` the
      clock reading. Nothing is sent when the lookups of the field types or of `id`
      fail; a completed push counts every record; the resource ends either untouched or
      finalised. */
  function PushSpec(props: Props, headers: seq<string>, guessed: seq<Types.CellType>,
                    rows: seq<Record>, replies: Replies, now: Cells.ValidDateTime): (r: Run)
    ensures r.sent == [] <==> Types.TypeNames(guessed).Failure? || "id" !in props
    ensures r.outcome.Pushed? ==> r.outcome.count == |rows|
    ensures r.props == props || r.props == props + Finalisation(now)
  {
    match Types.TypeNames(guessed)
    case Failure(t) => Run(Failed(UnmappedType(t)), [], props)
    case Success(names) =>
      if "id" !in props then Run(Failed(MissingId), [], props)
      else
        var id := props["id"];
        var delete := [DatastoreDelete(id)];
        if !DeleteAccepted(replies.delete) then Run(Failed(DeleteFailed), delete, props)
        else
          var batches := Chunking.Chunks(rows, BatchSize);
          var fields := Fields(headers, names);
          var k := FirstRejected(replies.create, 0, |batches|);
          if k < |batches| then
            Run(Failed(CreateRejected(k, replies.create(k))),
                delete + Creates(id, fields, batches[..k + 1]), props)
          else
            var final := props + Finalisation(now);
            var sent := delete + Creates(id, fields, batches) + [ResourceUpdate(final)];
            if Accepted(replies.update) then Run(Pushed(|rows|), sent, final)
            else Run(Failed(UpdateRejected(replies.update)), sent, final)
  }

  /** The resource dictionary, updated in place at the end of a push. */
  class Resource {
    var props: Props

    constructor (props: Props)
      ensures this.props == props
    {
      this.props := props;
    }

    /** `resource.update(entries)`. */
    method Update(entries: Props)
      modifies this
      ensures props == old(props) + entries
    {
      props := props + entries;
    }
  }

  /** How the batch loop ended: every create accepted after `count` records, or the
      create of batch `batch` answered with `reply`. */
  datatype BatchResult = AllAccepted(count: nat) | Rejected(batch: nat, reply: Reply)

  /** The loop over `chunky(row_set.dicts(), 100)`: take the next batch from the shared
      iterator, stop when it is empty, add its size to `count`, send it (`send_request`)
      and raise at the first rejected reply. Every batch up to and including the rejected
      one has been sent, and none after it. */
  method SendBatches(id: string, fields: seq<Field>, rows: seq<Record>, create: nat -> Reply)
    returns (result: BatchResult, sent: seq<Request>)
    ensures var batches := Chunking.Chunks(rows, BatchSize);
            var k := FirstRejected(create, 0, |batches|);
            if k < |batches| then
              result == Rejected(k, create(k)) && sent == Creates(id, fields, batches[..k + 1])
            else
              result == AllAccepted(|rows|) && sent == Creates(id, fields, batches)
  {
    ghost var batches := Chunking.Chunks(rows, BatchSize);
    var it := new Chunking.RowIterator(rows);
    var count := 0;
    var batch := 0;
    sent := [];
    while true
      invariant it.Valid() && it.rows == rows
      invariant batch <= |batches|
      invariant batches[batch..] == Chunking.Chunks(rows[it.pos..], BatchSize)
      invariant count == it.pos
      invariant sent == Creates(id, fields, batches[..batch])
      invariant forall j :: 0 <= j < batch ==> Accepted(create(j))
      decreases |rows| - it.pos
    {
      ghost var from := it.pos;
      var data := it.Take(BatchSize);
      Chunking.NextChunk(rows, BatchSize, batches, batch, from, data);
      if data == [] {
        break;
      }
      count := count + |data|;
      CreatesAppend(id, fields, batches[..batch], data);
      sent := sent + [DatastoreCreate(id, fields, data)];
      var reply := create(batch);
      if !Accepted(reply) {
        FirstRejectedAt(create, |batches|, batch);
        result := Rejected(batch, reply);
        return;
      }
      batch := batch + 1;
    }
    result := AllAccepted(count);
  }

  /** `push_to_datastore`: look up the field types, delete the old data, send the records
      in batches while counting them, then mark the resource active. */
  method PushToDatastore(resource: Resource, headers: seq<string>, guessed: seq<Types.CellType>,
                         rows: seq<Record>, replies: Replies, now: Cells.ValidDateTime)
    returns (outcome: Outcome, sent: seq<Request>)
    modifies resource
    ensures Run(outcome, sent, resource.props) ==
            PushSpec(old(resource.props), headers, guessed, rows, replies, now)
  {
    sent := [];
    var names := Types.TypeNames(guessed);
    if names.Failure? {
      outcome := Failed(UnmappedType(names.error));
      return;
    }
    if "id" !in resource.props {
      outcome := Failed(MissingId);
      return;
    }
    var id := resource.props["id"];
    var fields := Fields(headers, names.value);

    sent := [DatastoreDelete(id)];
    if !DeleteAccepted(replies.delete) {
      outcome := Failed(DeleteFailed);
      return;
    }

    var result, creates := SendBatches(id, fields, rows, replies.create);
    sent := sent + creates;
    if result.Rejected? {
      outcome := Failed(CreateRejected(result.batch, result.reply));
      return;
    }

    resource.Update(Finalisation(now));
    sent := sent + [ResourceUpdate(resource.props)];
    if Accepted(replies.update) {
      outcome := Pushed(result.count);
    } else {
      outcome := Failed(UpdateRejected(replies.update));
    }
  }

  /** The records carried by the create requests among `reqs`, in the order sent. */
  function SentRecords(reqs: seq<Request>): seq<Record> {
    if reqs == [] then []
    else (if reqs[0].DatastoreCreate? then reqs[0].records else []) + SentRecords(reqs[1..])
  }

  lemma {:induction false} SentRecordsAppend(a: seq<Request>, b: seq<Request>)
    ensures SentRecords(a + b) == SentRecords(a) + SentRecords(b)
  {
    if a == [] {
      assert a + b == b;
    } else {
      assert (a + b)[1..] == a[1..] + b;
      SentRecordsAppend(a[1..], b);
    }
  }

  lemma {:induction false} SentRecordsOfCreates(id: string, fields: seq<Field>, batches: seq<seq<Record>>)
    ensures SentRecords(Creates(id, fields, batches)) == Chunking.Flatten(batches)
  {
    if batches != [] {
      var rs := Creates(id, fields, batches);
      assert rs[1..] == Creates(id, fields, batches[1..]);
      SentRecordsOfCreates(id, fields, batches[1..]);
    } else {
      assert Creates(id, fields, batches) == [];
    }
  }

  /** Nothing but a delete can come first: every request after it is sent only once the
      delete was accepted, and no request precedes it. */
  lemma DeleteBeforeCreate(props: Props, headers: seq<string>, guessed: seq<Types.CellType>,
                           rows: seq<Record>, replies: Replies, now: Cells.ValidDateTime)
    ensures var r := PushSpec(props, headers, guessed, rows, replies, now);
            r.sent != [] ==> "id" in props && r.sent[0] == DatastoreDelete(props["id"])
    ensures var r := PushSpec(props, headers, guessed, rows, replies, now);
            forall i :: 0 < i < |r.sent| ==> !r.sent[i].DatastoreDelete? && DeleteAccepted(replies.delete)
  {
    var r := PushSpec(props, headers, guessed, rows, replies, now);
    if Types.TypeNames(guessed).Success? && "id" in props && DeleteAccepted(replies.delete) {
      var id := props["id"];
      var batches := Chunking.Chunks(rows, BatchSize);
      var fields := Fields(headers, Types.TypeNames(guessed).value);
      var k := FirstRejected(replies.create, 0, |batches|);
      var rest := if k < |batches| then Creates(id, fields, batches[..k + 1])
                  else Creates(id, fields, batches) + [ResourceUpdate(r.props)];
      assert r.sent == [DatastoreDelete(id)] + rest;
      assert forall i :: 0 <= i < |rest| ==> !rest[i].DatastoreDelete?;
    }
  }

  /** A rejected or failed delete ends the push at once: only the delete was sent and the
      resource is untouched. */
  lemma DeleteFailureAborts(props: Props, headers: seq<string>, guessed: seq<Types.CellType>,
                            rows: seq<Record>, replies: Replies, now: Cells.ValidDateTime)
    requires Types.TypeNames(guessed).Success? && "id" in props
    ensures var r := PushSpec(props, headers, guessed, rows, replies, now);
            r.outcome == Failed(DeleteFailed) <==> !DeleteAccepted(replies.delete)
    ensures var r := PushSpec(props, headers, guessed, rows, replies, now);
            r.outcome == Failed(DeleteFailed) ==> r.sent == [DatastoreDelete(props["id"])] && r.props == props
  {
  }

  /** What a push stopped by a rejected create consists of: the delete, then the creates
      of the batches up to the rejected one, all accepted but the last. */
  lemma RejectedRequests(props: Props, headers: seq<string>, guessed: seq<Types.CellType>,
                         rows: seq<Record>, replies: Replies, now: Cells.ValidDateTime)
    requires var r := PushSpec(props, headers, guessed, rows, replies, now);
             r.outcome.Failed? && r.outcome.error.CreateRejected?
    ensures Types.TypeNames(guessed).Success? && "id" in props && DeleteAccepted(replies.delete)
    ensures var r := PushSpec(props, headers, guessed, rows, replies, now);
            var b := r.outcome.error.batch;
            var batches := Chunking.Chunks(rows, BatchSize);
            var fields := Fields(headers, Types.TypeNames(guessed).value);
            b < |batches| && r.outcome.error.reply == replies.create(b) &&
            !Accepted(replies.create(b)) &&
            (forall j :: 0 <= j < b ==> Accepted(replies.create(j))) &&
            r.sent == [DatastoreDelete(props["id"])] + Creates(props["id"], fields, batches[..b + 1]) &&
            r.props == props
  {
  }

  /** The delete followed by the creates of the first `b + 1` batches: `b + 2` requests,
      the last one carrying batch `b`, no update among them, and the records carried are
      the first ones of `rows`, in order. */
  lemma BatchPrefixSent(id: string, fields: seq<Field>, rows: seq<Record>, b: nat)
    requires b < |Chunking.Chunks(rows, BatchSize)|
    ensures var batches := Chunking.Chunks(rows, BatchSize);
            var sent := [DatastoreDelete(id)] + Creates(id, fields, batches[..b + 1]);
            |sent| == b + 2 && sent[b + 1] == DatastoreCreate(id, fields, batches[b]) &&
            (forall i :: 0 <= i < |sent| ==> !sent[i].ResourceUpdate?) &&
            SentRecords(sent) <= rows
  {
    var batches := Chunking.Chunks(rows, BatchSize);
    var creates := Creates(id, fields, batches[..b + 1]);
    SentRecordsAppend([DatastoreDelete(id)], creates);
    SentRecordsOfCreates(id, fields, batches[..b + 1]);
    assert batches == batches[..b + 1] + batches[b + 1..];
    Chunking.FlattenAppend(batches[..b + 1], batches[b + 1..]);
    Chunking.ChunksRoundTrip(rows, BatchSize);
  }

  /** A rejected create is the last request: it is the create of batch `b`, neither a
      later batch nor the update is sent, and the resource is untouched. The records
      already sent are the first ones of `rows`, in order. */
  lemma CreateRejectionStops(props: Props, headers: seq<string>, guessed: seq<Types.CellType>,
                             rows: seq<Record>, replies: Replies, now: Cells.ValidDateTime)
    requires var r := PushSpec(props, headers, guessed, rows, replies, now);
             r.outcome.Failed? && r.outcome.error.CreateRejected?
    ensures var r := PushSpec(props, headers, guessed, rows, replies, now);
            var b := r.outcome.error.batch;
            |r.sent| == b + 2 &&
            r.sent[b + 1].DatastoreCreate? && r.sent[b + 1].records == Chunking.Chunks(rows, BatchSize)[b] &&
            (forall i :: 0 <= i < |r.sent| ==> !r.sent[i].ResourceUpdate?) &&
            SentRecords(r.sent) <= rows
  {
    var r := PushSpec(props, headers, guessed, rows, replies, now);
    RejectedRequests(props, headers, guessed, rows, replies, now);
    BatchPrefixSent(props["id"], Fields(headers, Types.TypeNames(guessed).value), rows, r.outcome.error.batch);
  }

  /** What a completed push consists of: the delete, the create of every batch, and the
      update of the finalised resource, which it leaves behind. */
  lemma PushedRequests(props: Props, headers: seq<string>, guessed: seq<Types.CellType>,
                       rows: seq<Record>, replies: Replies, now: Cells.ValidDateTime)
    requires PushSpec(props, headers, guessed, rows, replies, now).outcome.Pushed?
    ensures Types.TypeNames(guessed).Success? && "id" in props && DeleteAccepted(replies.delete)
    ensures var r := PushSpec(props, headers, guessed, rows, replies, now);
            var fields := Fields(headers, Types.TypeNames(guessed).value);
            r.props == props + Finalisation(now) && r.outcome.count == |rows| &&
            r.sent == [DatastoreDelete(props["id"])] +
                      Creates(props["id"], fields, Chunking.Chunks(rows, BatchSize)) +
                      [ResourceUpdate(r.props)]
  {
  }

  /** The delete, the creates of all batches and an update: `ceil(|rows| / 100) + 2`
      requests, carrying every record once, in order. */
  lemma AllBatchesSent(id: string, fields: seq<Field>, rows: seq<Record>, final: Props)
    ensures var sent := [DatastoreDelete(id)] + Creates(id, fields, Chunking.Chunks(rows, BatchSize)) +
                        [ResourceUpdate(final)];
            |sent| == (|rows| + BatchSize - 1) / BatchSize + 2 && SentRecords(sent) == rows
  {
    var batches := Chunking.Chunks(rows, BatchSize);
    var delete, creates := [DatastoreDelete(id)], Creates(id, fields, batches);
    Chunking.ChunkCount(rows, BatchSize);
    SentRecordsAppend(delete + creates, [ResourceUpdate(final)]);
    SentRecordsAppend(delete, creates);
    SentRecordsOfCreates(id, fields, batches);
    Chunking.ChunksRoundTrip(rows, BatchSize);
  }

  /** A completed push counted every record and sent each of them exactly once and in
      order, in `ceil(|rows| / 100)` creates between the delete and the update. */
  lemma SuccessfulPushSendsAll(props: Props, headers: seq<string>, guessed: seq<Types.CellType>,
                               rows: seq<Record>, replies: Replies, now: Cells.ValidDateTime)
    requires PushSpec(props, headers, guessed, rows, replies, now).outcome.Pushed?
    ensures var r := PushSpec(props, headers, guessed, rows, replies, now);
            r.outcome.count == |rows| &&
            |r.sent| == (|rows| + BatchSize - 1) / BatchSize + 2 &&
            SentRecords(r.sent) == rows
  {
    var r := PushSpec(props, headers, guessed, rows, replies, now);
    PushedRequests(props, headers, guessed, rows, replies, now);
    AllBatchesSent(props["id"], Fields(headers, Types.TypeNames(guessed).value), rows, r.props);
  }

  /** A completed push sent, last, the resource marked active with the timestamp of
      `now`, every other key as it was. */
  lemma SuccessfulPushFinalises(props: Props, headers: seq<string>, guessed: seq<Types.CellType>,
                                rows: seq<Record>, replies: Replies, now: Cells.ValidDateTime)
    requires PushSpec(props, headers, guessed, rows, replies, now).outcome.Pushed?
    ensures var r := PushSpec(props, headers, guessed, rows, replies, now);
            r.sent[|r.sent| - 1] == ResourceUpdate(r.props) &&
            r.props["webstore_url"] == "active" &&
            r.props["webstore_last_updated"] == Cells.IsoFormat(now, 'T') &&
            r.props.Keys == props.Keys + {"webstore_url", "webstore_last_updated"} &&
            (forall k :: k in props && k != "webstore_url" && k != "webstore_last_updated" ==>
               r.props[k] == props[k])
  {
    PushedRequests(props, headers, guessed, rows, replies, now);
  }

  /** The update is sent only after every batch was accepted, as the last request. */
  lemma UpdateOnlyAfterAllBatches(props: Props, headers: seq<string>, guessed: seq<Types.CellType>,
                                  rows: seq<Record>, replies: Replies, now: Cells.ValidDateTime)
    ensures var r := PushSpec(props, headers, guessed, rows, replies, now);
            forall i :: 0 <= i < |r.sent| && r.sent[i].ResourceUpdate? ==>
              i == |r.sent| - 1 && |r.sent| == |Chunking.Chunks(rows, BatchSize)| + 2 &&
              (forall j :: 0 <= j < |Chunking.Chunks(rows, BatchSize)| ==> Accepted(replies.create(j)))
  {
    var r := PushSpec(props, headers, guessed, rows, replies, now);
    if Types.TypeNames(guessed).Success? && "id" in props && DeleteAccepted(replies.delete) {
      var id := props["id"];
      var batches := Chunking.Chunks(rows, BatchSize);
      var fields := Fields(headers, Types.TypeNames(guessed).value);
      var k := FirstRejected(replies.create, 0, |batches|);
      if k < |batches| {
        var creates := Creates(id, fields, batches[..k + 1]);
        assert r.sent == [DatastoreDelete(id)] + creates;
        assert forall i :: 0 <= i < |creates| ==> !creates[i].ResourceUpdate?;
      } else {
        var creates := Creates(id, fields, batches);
        assert r.sent == [DatastoreDelete(id)] + creates + [ResourceUpdate(r.props)];
        assert forall i :: 0 <= i < |creates| ==> !creates[i].ResourceUpdate?;
      }
    }
  }

  /** A push completes exactly when every step succeeds: the guessed types are all mapped,
      the resource has an `id`, the delete is accepted, the create of every batch is
      accepted and so is the update. */
  lemma PushedExactly(props: Props, headers: seq<string>, guessed: seq<Types.CellType>,
                      rows: seq<Record>, replies: Replies, now: Cells.ValidDateTime)
    ensures PushSpec(props, headers, guessed, rows, replies, now).outcome.Pushed? <==>
            Types.TypeNames(guessed).Success? && "id" in props && DeleteAccepted(replies.delete) &&
            (forall j :: 0 <= j < |Chunking.Chunks(rows, BatchSize)| ==> Accepted(replies.create(j))) &&
            Accepted(replies.update)
  {
  }
}
