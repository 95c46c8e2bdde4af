/** One iteration of the local poller: receive, process the batch, delete the successes. */
module Worker {
  import opened Domain
  import opened Audit
  import opened Consumer

  datatype Received = Received(id: string, receipt: string, body: string)

  datatype DeleteEntry = DeleteEntry(id: string, receipt: string)

  function Messages(out: seq<Received>): (msgs: seq<Message>)
    ensures |msgs| == |out|
  {
    seq(|out|, i requires 0 <= i < |out| => Message(out[i].id, out[i].body))
  }

  /** Every copy of `id` in the batch succeeded, and there is one. */
  ghost predicate AllCopiesDone(out: seq<Received>, ok: seq<bool>, id: string)
    requires |out| == |ok|
  {
    && (exists i :: 0 <= i < |out| && out[i].id == id)
    && (forall i :: 0 <= i < |out| && out[i].id == id ==> ok[i])
  }

  /** The last copy of a repeated id is the one whose receipt handle is used. */
  ghost predicate LastCopy(out: seq<Received>, i: int) {
    0 <= i < |out| && forall j :: i < j < |out| ==> out[j].id != out[i].id
  }

  ghost predicate FromLastCopy(out: seq<Received>, e: DeleteEntry) {
    exists i :: LastCopy(out, i) && out[i].id == e.id && out[i].receipt == e.receipt
  }

  ghost predicate Listed(entries: seq<DeleteEntry>, id: string) {
    exists k :: 0 <= k < |entries| && entries[k].id == id
  }

  /** What the verdicts of a batch mean for an id: reported as failed or not, and what deletion relies on. */
  lemma BatchVerdicts(st: Stores, unmarshal: string -> Option<ScoringEvent>, out: seq<Received>,
                      fate: nat -> Fault, calls: nat, id: string)
    ensures var run := DeliverAll(st, Parsed(unmarshal, Messages(out)), fate, calls);
            && (AllCopiesDone(out, run.2, id)
                <==> (exists i :: 0 <= i < |out| && out[i].id == id) && id !in FailedIDs(Messages(out), run.2))
            && (AllCopiesDone(out, run.2, id) ==>
                  forall i :: 0 <= i < |out| && out[i].id == id ==>
                    unmarshal(out[i].body).Some? && Recorded(run.0, unmarshal(out[i].body).value))
  {
    var evs := Parsed(unmarshal, Messages(out));
    var run := DeliverAll(st, evs, fate, calls);
    FailedIffSomeCopyFailed(Messages(out), run.2, id);
    DoneMeansRecorded(st, evs, fate, calls);
    forall i | 0 <= i < |out| && out[i].id == id ensures Messages(out)[i].id == id && evs[i] == unmarshal(out[i].body) {
    }
  }

  /** The body of the poll loop. It returns the entries of the delete request. */
  method PollOnce(h: Handler, out: seq<Received>) returns (toDelete: seq<DeleteEntry>)
    requires h.Valid()
    modifies h.net, h.audit, h.review, h.retrain
    ensures h.Valid()
    ensures var run := DeliverAll(old(h.View()), Parsed(h.unmarshal, Messages(out)), h.net.fate, old(h.net.calls));
            && h.View() == run.0
            && forall id :: Listed(toDelete, id) <==> AllCopiesDone(out, run.2, id)
    ensures forall j, k :: 0 <= j < k < |toDelete| ==> toDelete[j].id != toDelete[k].id
    ensures forall k :: 0 <= k < |toDelete| ==> FromLastCopy(out, toDelete[k])
    ensures forall i :: 0 <= i < |out| && Listed(toDelete, out[i].id) ==>
              h.unmarshal(out[i].body).Some? && Recorded(h.View(), h.unmarshal(out[i].body).value)
  {
    forall id {
      BatchVerdicts(h.View(), h.unmarshal, out, h.net.fate, h.net.calls, id);
    }
    var byID := IndexByID(out);
    var failed := h.ProcessBatch(Messages(out));
    var failedSet := set i | 0 <= i < |failed| :: failed[i];
    toDelete := Successes(byID, failedSet);
    forall k | 0 <= k < |toDelete| ensures FromLastCopy(out, toDelete[k]) {
      assert Listed(toDelete, toDelete[k].id);
    }
  }

  /** The delete request: every received id that is not in the failed set, once, in any order. */
  method Successes(byID: map<string, Received>, failedSet: set<string>) returns (toDelete: seq<DeleteEntry>)
    ensures forall k :: 0 <= k < |toDelete| ==> toDelete[k].id in byID && toDelete[k].receipt == byID[toDelete[k].id].receipt
    ensures forall id :: Listed(toDelete, id) <==> id in byID && id !in failedSet
    ensures forall j, k :: 0 <= j < k < |toDelete| ==> toDelete[j].id != toDelete[k].id
  {
    toDelete := [];
    var ids := byID.Keys;
    while ids != {}
      invariant ids <= byID.Keys
      invariant forall k :: 0 <= k < |toDelete| ==> toDelete[k].id in byID && toDelete[k].receipt == byID[toDelete[k].id].receipt
      invariant forall id :: Listed(toDelete, id) <==> id in byID && id !in ids && id !in failedSet
      invariant forall j, k :: 0 <= j < k < |toDelete| ==> toDelete[j].id != toDelete[k].id
      decreases |ids|
    {
      var id :| id in ids;
      ghost var before := toDelete;
      if id !in failedSet {
        toDelete := toDelete + [DeleteEntry(id, byID[id].receipt)];
        assert forall k :: 0 <= k < |before| ==> Listed(before, before[k].id);
        ListedAfter(before, DeleteEntry(id, byID[id].receipt));
      }
      ids := ids - {id};
    }
  }

  lemma ListedAfter(before: seq<DeleteEntry>, e: DeleteEntry)
    ensures forall id :: Listed(before + [e], id) <==> Listed(before, id) || id == e.id
  {
    var after := before + [e];
    assert after[|before|] == e;
    forall id | Listed(before, id) ensures Listed(after, id) {
      var k :| 0 <= k < |before| && before[k].id == id;
      assert after[k].id == id;
    }
  }

  method IndexByID(out: seq<Received>) returns (byID: map<string, Received>)
    ensures forall id :: id in byID <==> exists i :: 0 <= i < |out| && out[i].id == id
    ensures forall id :: id in byID ==> exists i :: LastCopy(out, i) && out[i].id == id && out[i] == byID[id]
  {
    byID := map[];
    ghost var last: map<string, nat> := map[];
    for i := 0 to |out|
      invariant byID.Keys == last.Keys
      invariant forall id :: id in last ==> last[id] < i && out[last[id]].id == id && out[last[id]] == byID[id]
      invariant forall j :: 0 <= j < i ==> out[j].id in last && j <= last[out[j].id]
    {
      byID := byID[out[i].id := out[i]];
      last := last[out[i].id := i];
    }
    forall id | id in byID ensures exists i :: LastCopy(out, i) && out[i].id == id && out[i] == byID[id] {
      assert LastCopy(out, last[id]);
    }
  }
}
