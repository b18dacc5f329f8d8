/** The history worker (src/services/workers/history_worker.rs): it owns the history store, keeps the
    list of pages subscribed to it, and after each change re-reads the newest rows and sends that
    snapshot to every subscriber. A subscriber is an opaque sender handle; what has been sent so far
    is the log `sent`. Each store statement's outcome is an input, as in `HistoryStore`. */
module HistoryWorkers {
  import opened Wrappers
  import opened PersistentArticles
  import opened HistoryStore

  /** A `ComponentSender<HistoryPage>`, known only by identity. */
  datatype Subscriber = Subscriber(channel: nat)

  /** `HistoryWorkerInput`: the messages the worker accepts. */
  datatype WorkerInput = Fetch | DeleterAll | Save(article: PersistentArticle) | Delete(id: string) | Subscribe(sender: Subscriber)

  /** `HistoryPageInput::UpdateHistory(rows)` delivered to `to`. */
  datatype Notification = UpdateHistory(to: Subscriber, rows: seq<PersistentArticle>)

  /** One notification per subscriber, in subscription order, all with the same rows. */
  function Broadcast(subscribers: seq<Subscriber>, rows: seq<PersistentArticle>): (ns: seq<Notification>)
    ensures |ns| == |subscribers|
    ensures forall i :: 0 <= i < |ns| ==> ns[i].to == subscribers[i] && ns[i].rows == rows
  {
    seq(|subscribers|, i requires 0 <= i < |subscribers| => UpdateHistory(subscribers[i], rows))
  }

  /** Broadcasting to more subscribers extends the earlier broadcast. */
  lemma BroadcastAppend(subscribers: seq<Subscriber>, s: Subscriber, rows: seq<PersistentArticle>)
    ensures Broadcast(subscribers + [s], rows) == Broadcast(subscribers, rows) + [UpdateHistory(s, rows)]
  {
    var lhs := Broadcast(subscribers + [s], rows);
    var rhs := Broadcast(subscribers, rows) + [UpdateHistory(s, rows)];
    assert |lhs| == |rhs|;
    forall i | 0 <= i < |lhs| ensures lhs[i] == rhs[i] {
      if i < |subscribers| {
        assert (subscribers + [s])[i] == subscribers[i];
      }
    }
  }

  class HistoryWorker {
    const service: HistoryService
    var subscribers: seq<Subscriber>
    var sent: seq<Notification>

    predicate Valid()
      reads this, service
    {
      service.Valid()
    }

    /** `init`: the given store and no subscribers yet. */
    constructor (service: HistoryService)
      requires service.Valid()
      ensures this.service == service && subscribers == [] && sent == [] && Valid()
    {
      this.service := service;
      subscribers := [];
      sent := [];
    }

    /** The loop `for sub in &self.subscribers { sub.input(UpdateHistory(rows.clone())) }`. */
    method SendToAll(rows: seq<PersistentArticle>)
      modifies this
      ensures sent == old(sent) + Broadcast(subscribers, rows)
      ensures subscribers == old(subscribers)
    {
      ghost var start := sent;
      for i := 0 to |subscribers|
        invariant subscribers == old(subscribers)
        invariant |sent| == |start| + i
        invariant forall j :: 0 <= j < |start| ==> sent[j] == start[j]
        invariant forall j :: 0 <= j < i ==> sent[|start| + j] == UpdateHistory(subscribers[j], rows)
      {
        ghost var before := sent;
        sent := sent + [UpdateHistory(subscribers[i], rows)];
        assert forall j :: 0 <= j < |before| ==> sent[j] == before[j];
      }
      assert sent == start + Broadcast(subscribers, rows);
    }

    /** `if let Ok(recent) = self.service.get_all_history() { ... }`: on a successful read every
        subscriber gets the same newest-rows snapshot, which is returned; on a failed read nothing is
        sent. The store is not changed. */
    method Notify(readFailure: Option<string>) returns (snapshot: Option<seq<PersistentArticle>>)
      requires Valid()
      modifies this
      ensures snapshot.Some? <==> readFailure.None?
      ensures snapshot.Some? ==> IsNewest(snapshot.value, service.table, HISTORY_LIMIT) && |snapshot.value| <= HISTORY_LIMIT
      ensures snapshot.Some? ==> sent == old(sent) + Broadcast(subscribers, snapshot.value)
      ensures snapshot.None? ==> sent == old(sent)
      ensures subscribers == old(subscribers)
    {
      var recent := service.GetAllHistory(readFailure);
      if recent.Err? {
        return None;
      }
      SendToAll(recent.value);
      return Some(recent.value);
    }

    /** `Fetch`: the store is left as it is; subscribers get the current snapshot if it reads. */
    method Fetch(readFailure: Option<string>) returns (snapshot: Option<seq<PersistentArticle>>)
      requires Valid()
      modifies this
      ensures Valid() && subscribers == old(subscribers)
      ensures snapshot.Some? <==> readFailure.None?
      ensures snapshot.Some? ==> IsNewest(snapshot.value, service.table, HISTORY_LIMIT) && |snapshot.value| <= HISTORY_LIMIT
      ensures snapshot.Some? ==> sent == old(sent) + Broadcast(subscribers, snapshot.value)
      ensures snapshot.None? ==> sent == old(sent)
    {
      snapshot := Notify(readFailure);
    }

    /** `DeleterAll`: clears the store, then notifies only when both the clear and the re-read
        succeed; the snapshot sent is then empty. */
    method DeleterAll(clearFailure: Option<string>, readFailure: Option<string>) returns (snapshot: Option<seq<PersistentArticle>>)
      requires Valid()
      modifies this, service
      ensures Valid() && subscribers == old(subscribers)
      ensures clearFailure.None? ==> service.table == map[]
      ensures clearFailure.Some? ==> service.table == old(service.table)
      ensures snapshot.Some? <==> clearFailure.None? && readFailure.None?
      ensures snapshot.Some? ==> snapshot.value == [] && sent == old(sent) + Broadcast(subscribers, [])
      ensures snapshot.None? ==> sent == old(sent)
    {
      var cleared := service.ClearAllHistory(clearFailure);
      if cleared.Err? {
        return None;
      }
      snapshot := Notify(readFailure);
    }

    /** `Save`: upserts the article; a failed write is ignored, and the store is re-read and the
        subscribers notified either way. */
    method Save(article: PersistentArticle, saveFailure: Option<string>, readFailure: Option<string>)
      returns (snapshot: Option<seq<PersistentArticle>>)
      requires Valid()
      modifies this, service
      ensures Valid() && subscribers == old(subscribers)
      ensures saveFailure.None? ==> service.table == old(service.table)[article.id := article]
      ensures saveFailure.Some? ==> service.table == old(service.table)
      ensures snapshot.Some? <==> readFailure.None?
      ensures snapshot.Some? ==> IsNewest(snapshot.value, service.table, HISTORY_LIMIT) && |snapshot.value| <= HISTORY_LIMIT
      ensures snapshot.Some? ==> sent == old(sent) + Broadcast(subscribers, snapshot.value)
      ensures snapshot.None? ==> sent == old(sent)
    {
      var _ := service.SaveToHistory(article, saveFailure);
      snapshot := Notify(readFailure);
    }

    /** `Delete(id)`: removes that id, then notifies only when both the delete and the re-read
        succeed; the row deleted is not in the snapshot. */
    method Delete(id: string, deleteFailure: Option<string>, readFailure: Option<string>)
      returns (snapshot: Option<seq<PersistentArticle>>)
      requires Valid()
      modifies this, service
      ensures Valid() && subscribers == old(subscribers)
      ensures deleteFailure.None? ==> service.table == old(service.table) - {id}
      ensures deleteFailure.Some? ==> service.table == old(service.table)
      ensures snapshot.Some? <==> deleteFailure.None? && readFailure.None?
      ensures snapshot.Some? ==> IsNewest(snapshot.value, service.table, HISTORY_LIMIT) && |snapshot.value| <= HISTORY_LIMIT
      ensures snapshot.Some? ==> NotTaken(snapshot.value, id)
      ensures snapshot.Some? ==> sent == old(sent) + Broadcast(subscribers, snapshot.value)
      ensures snapshot.None? ==> sent == old(sent)
    {
      var deleted := service.DeleteEntry(id, deleteFailure);
      if deleted.Err? {
        return None;
      }
      snapshot := Notify(readFailure);
    }

    /** `Subscribe`: the sender goes to the end of the list; nothing is sent and the store is not
        touched. */
    method Subscribe(s: Subscriber)
      modifies this
      ensures subscribers == old(subscribers) + [s]
      ensures sent == old(sent)
    {
      subscribers := subscribers + [s];
    }
  }
}
