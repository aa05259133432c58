/**
 Webhooks may arrive in any order and any number of times. As long as an event id stands for one event, the
 money ends up in the same place: what matters is only which events arrived.
 */
module Confluence {
  import opened Common
  import opened Books
  import opened Invariant
  import LedgerProofs
  import PaymentProofs
  import opened Reachable

  datatype Delivery = Delivery(event: Event, clock: Clock)

  function DeliverAll(s: State, ds: seq<Delivery>): State {
    if ds == [] then s
    else HandleWebhook(DeliverAll(s, ds[..|ds| - 1]), ds[|ds| - 1].event, ds[|ds| - 1].clock)
  }

  /** Which events arrived. */
  function Arrived(ds: seq<Delivery>): set<Event> {
    set d | d in ds :: d.event
  }

  function Id(e: Event): (nat, string) { (e.provider, e.id) }

  ghost predicate IdsDetermine(events: set<Event>) {
    forall e, f :: e in events && f in events && Id(e) == Id(f) ==> e == f
  }

  // ----- Where each transaction ends up -----

  predicate Names(txs: seq<Transaction>, e: Event, k: nat) {
    !e.kind.OtherEvent? && e.externalId != "" && FindPayment(txs, e.provider, e.externalId) == Some(k)
  }

  /** A new event that confirms transaction k with the right amount and currency. */
  ghost predicate Confirms(s: State, e: Event, k: nat)
    requires k < |s.txs|
  {
    && Id(e) !in s.events && Names(s.txs, e, k) && e.kind.PaymentSucceeded?
    && e.amount == Some(s.txs[k].amount) && e.currency == s.txs[k].currency
  }

  ghost predicate Denies(s: State, e: Event, k: nat) {
    Id(e) !in s.events && Names(s.txs, e, k) && e.kind.PaymentFailed?
  }

  /** The status of transaction k once the events have arrived, told from the set of events alone. */
  ghost function FinalStatus(s: State, events: set<Event>, k: nat): TxStatus
    requires k < |s.txs|
  {
    if s.txs[k].status.Succeeded? || exists e :: e in events && Confirms(s, e, k) then Succeeded
    else if s.txs[k].status.Pending? && exists e :: e in events && Denies(s, e, k) then Failed
    else s.txs[k].status
  }

  /** Which payment a reference names does not depend on any status. */
  lemma {:induction false} FindStable(txs: seq<Transaction>, other: seq<Transaction>, provider: nat, ext: string)
    requires |txs| == |other| && forall k :: 0 <= k < |txs| ==> other[k] == txs[k].(status := other[k].status)
    ensures FindPayment(txs, provider, ext) == FindPayment(other, provider, ext)
  {
    if txs != [] {
      var n := |txs| - 1;
      assert other[n] == txs[n].(status := other[n].status);
      FindStable(txs[..n], other[..n], provider, ext);
    }
  }

  /** The transaction table and the received ids after the deliveries. */
  ghost predicate Delivered(s: State, events: set<Event>, t: State) {
    && t.events == s.events + (set e | e in events :: Id(e))
    && |t.txs| == |s.txs|
    && forall k :: 0 <= k < |s.txs| ==> t.txs[k] == s.txs[k].(status := FinalStatus(s, events, k))
  }

  lemma RecomputeKeepsTables(s: State, i: nat, clock: Clock)
    requires HasInvoice(s, i)
    ensures RecomputeInvoice(s, i, clock).txs == s.txs && RecomputeInvoice(s, i, clock).events == s.events
  {
  }

  /** What one delivery does to the table: the named transaction moves by the event, if it still can. */
  function Moves(t: Transaction, e: Event): TxStatus {
    if e.kind.PaymentFailed? then (if t.status.Pending? then Failed else t.status)
    else if e.kind.PaymentSucceeded? && e.amount == Some(t.amount) && e.currency == t.currency then Succeeded
    else t.status
  }

  lemma ApplyEventTxs(t: State, e: Event, clock: Clock)
    requires Inv(t)
    ensures
      var u := ApplyEvent(t, e, clock);
      && u.events == t.events && |u.txs| == |t.txs|
      && forall k :: 0 <= k < |t.txs| ==>
          u.txs[k] == if Names(t.txs, e, k) then t.txs[k].(status := Moves(t.txs[k], e)) else t.txs[k]
  {
    forall k | 0 <= k < |t.txs| ensures HasInvoice(t, t.txs[k].invoice) {
      assert TxOk(t.invoices, t.txs, t.txs[k]);
    }
    hide Inv;
    EventMoves(t, e, clock);
  }

  lemma EventMoves(t: State, e: Event, clock: Clock)
    requires forall k :: 0 <= k < |t.txs| ==> HasInvoice(t, t.txs[k].invoice)
    ensures
      var u := ApplyEvent(t, e, clock);
      && u.events == t.events && |u.txs| == |t.txs|
      && forall k :: 0 <= k < |t.txs| ==>
          u.txs[k] == if Names(t.txs, e, k) then t.txs[k].(status := Moves(t.txs[k], e)) else t.txs[k]
  {
    var found := FindPayment(t.txs, e.provider, e.externalId);
    if found.Some? {
      RecomputeKeepsTables(SetStatus(t, found.value, Succeeded), t.txs[found.value].invoice, clock);
    }
    hide RecomputeInvoice, FindPayment;
  }

  /** A new event moves every transaction to where the larger set of events puts it. */
  lemma FinalStatusGrows(s: State, events: set<Event>, e: Event, k: nat, now: Transaction)
    requires k < |s.txs| && Id(e) !in s.events
    requires now == s.txs[k].(status := FinalStatus(s, events, k))
    ensures FinalStatus(s, events + {e}, k) == if Names(s.txs, e, k) then Moves(now, e) else now.status
  {
    assert forall f :: f in events + {e} <==> f in events || f == e;
  }

  /** An event whose id was already received before the deliveries began counts for nothing. */
  lemma StaleEvent(s: State, events: set<Event>, e: Event, k: nat)
    requires k < |s.txs| && Id(e) in s.events
    ensures FinalStatus(s, events + {e}, k) == FinalStatus(s, events, k)
  {
    assert forall f :: f in events + {e} <==> f in events || f == e;
  }

  /** A redelivery changes nothing, and nothing is expected to change. */
  lemma DeliverAgain(s: State, events: set<Event>, t: State, e: Event)
    requires Delivered(s, events, t) && IdsDetermine(events + {e}) && Id(e) in t.events
    ensures Delivered(s, events + {e}, t)
  {
    var grown := events + {e};
    if Id(e) in s.events {
      forall k | 0 <= k < |s.txs| ensures FinalStatus(s, grown, k) == FinalStatus(s, events, k) {
        StaleEvent(s, events, e, k);
      }
      hide FinalStatus;
      assert t.events == s.events + (set f | f in grown :: Id(f));
    } else {
      var f :| f in events && Id(f) == Id(e);
      assert f in grown && e in grown;
      assert grown == events;
    }
  }

  lemma DeliverNew(s: State, events: set<Event>, t: State, e: Event, u: State)
    requires Delivered(s, events, t) && Id(e) !in t.events
    requires u.events == t.events + {Id(e)} && |u.txs| == |t.txs|
    requires forall k :: 0 <= k < |t.txs| ==>
      u.txs[k] == if Names(t.txs, e, k) then t.txs[k].(status := Moves(t.txs[k], e)) else t.txs[k]
    ensures Delivered(s, events + {e}, u)
  {
    var grown := events + {e};
    FindStable(s.txs, t.txs, e.provider, e.externalId);
    forall k | 0 <= k < |s.txs| ensures u.txs[k] == s.txs[k].(status := FinalStatus(s, grown, k)) {
      FinalStatusGrows(s, events, e, k, t.txs[k]);
    }
    hide FinalStatus;
    assert u.events == s.events + (set f | f in grown :: Id(f));
  }

  lemma DeliverStep(s: State, events: set<Event>, t: State, e: Event, clock: Clock)
    requires Inv(t) && Delivered(s, events, t) && IdsDetermine(events + {e})
    ensures Delivered(s, events + {e}, HandleWebhook(t, e, clock))
  {
    hide Delivered;
    if Id(e) in t.events {
      DeliverAgain(s, events, t, e);
    } else {
      var recorded := t.(events := t.events + {Id(e)});
      PaymentProofs.RecordEventKeeps(t, e);
      ApplyEventTxs(recorded, e, clock);
      DeliverNew(s, events, t, e, ApplyEvent(recorded, e, clock));
    }
  }

  lemma ArrivedLast(ds: seq<Delivery>)
    requires ds != []
    ensures Arrived(ds) == Arrived(ds[..|ds| - 1]) + {ds[|ds| - 1].event}
  {
    var n := |ds| - 1;
    assert ds == ds[..n] + [ds[n]];
  }

  lemma {:induction false} DeliverAllTxs(s: State, ds: seq<Delivery>)
    requires Inv(s) && IdsDetermine(Arrived(ds))
    ensures Inv(DeliverAll(s, ds)) && Delivered(s, Arrived(ds), DeliverAll(s, ds))
  {
    hide Inv;
    if ds == [] {
      NothingDelivered(s);
    } else {
      var n := |ds| - 1;
      ArrivedLast(ds);
      DeliverAllTxs(s, ds[..n]);
      PaymentProofs.WebhookKeeps(DeliverAll(s, ds[..n]), ds[n].event, ds[n].clock);
      DeliverStep(s, Arrived(ds[..n]), DeliverAll(s, ds[..n]), ds[n].event, ds[n].clock);
    }
  }

  lemma NothingDelivered(s: State)
    ensures Delivered(s, Arrived([]), s)
  {
  }

  // ----- Where each invoice ends up -----

  /** Webhooks move an invoice's paid position; they neither cancel it nor open it nor touch anything else. */
  ghost predicate OnlyMoved(b: Slot<Invoice>, a: Slot<Invoice>) {
    && b.Live? == a.Live?
    && (b.Live? ==>
          && a.row == b.row.(amountPaid := a.row.amountPaid, amountRefunded := a.row.amountRefunded,
                             status := a.row.status, paidAt := a.row.paidAt)
          && b.row.status.Draft? == a.row.status.Draft? && b.row.status.Cancelled? == a.row.status.Cancelled?)
  }

  ghost predicate RowsOnlyMoved(b: seq<Slot<Invoice>>, a: seq<Slot<Invoice>>) {
    |b| == |a| && forall i :: 0 <= i < |b| ==> OnlyMoved(b[i], a[i])
  }

  lemma RecomputeOnlyMoves(s: State, i: nat, clock: Clock)
    requires HasInvoice(s, i)
    ensures RowsOnlyMoved(s.invoices, RecomputeInvoice(s, i, clock).invoices)
  {
    var stored := LedgerProofs.Stored(s, s.txs, i, clock.now);
    assert RecomputeInvoice(s, i, clock).invoices == stored.invoices;
    hide RecomputeInvoice;
  }

  lemma WebhookOnlyMoves(s: State, e: Event, clock: Clock)
    ensures RowsOnlyMoved(s.invoices, HandleWebhook(s, e, clock).invoices)
  {
    var recorded := s.(events := s.events + {Id(e)});
    var found := FindPayment(s.txs, e.provider, e.externalId);
    if found.Some? && HasInvoice(s, s.txs[found.value].invoice) {
      RecomputeOnlyMoves(SetStatus(recorded, found.value, Succeeded), s.txs[found.value].invoice, clock);
      hide RecomputeInvoice;
    }
  }

  lemma {:induction false} DeliverAllOnlyMoves(s: State, ds: seq<Delivery>)
    ensures RowsOnlyMoved(s.invoices, DeliverAll(s, ds).invoices)
  {
    if ds != [] {
      var n := |ds| - 1;
      var t := DeliverAll(s, ds[..n]);
      DeliverAllOnlyMoves(s, ds[..n]);
      WebhookOnlyMoves(t, ds[n].event, ds[n].clock);
      var u := DeliverAll(s, ds);
      forall i | 0 <= i < |s.invoices| ensures OnlyMoved(s.invoices[i], u.invoices[i]) {
        assert OnlyMoved(s.invoices[i], t.invoices[i]) && OnlyMoved(t.invoices[i], u.invoices[i]);
      }
    }
  }

  /** The same invoice in every respect but the moment it was paid at. */
  ghost predicate SamePosition(a: Slot<Invoice>, b: Slot<Invoice>) {
    && a.Live? == b.Live?
    && (a.Live? ==> a.row.(paidAt := None) == b.row.(paidAt := None) && a.row.paidAt.Some? == b.row.paidAt.Some?)
  }

  lemma SameTxsSamePosition(s: State, t: State, u: State, i: nat)
    requires i < |s.invoices| && RowsOnlyMoved(s.invoices, t.invoices) && RowsOnlyMoved(s.invoices, u.invoices)
    requires t.txs == u.txs && BalancesOk(t.invoices, t.txs) && BalancesOk(u.invoices, u.txs)
    ensures SamePosition(t.invoices[i], u.invoices[i])
  {
    assert OnlyMoved(s.invoices[i], t.invoices[i]) && OnlyMoved(s.invoices[i], u.invoices[i]);
    if t.invoices[i].Live? {
      assert BalanceOk(t.txs, i, t.invoices[i].row) && BalanceOk(u.txs, i, u.invoices[i].row);
    }
  }

  /**
   Confluence: from any reachable state, two delivery sequences with the same set of events, in any order and
   with any duplicates, end with the same transactions, the same received ids and the same invoice positions.
   */
  lemma WebhookConfluence(ops: seq<Op>, ds: seq<Delivery>, es: seq<Delivery>)
    requires Arrived(ds) == Arrived(es) && IdsDetermine(Arrived(ds))
    ensures
      var t, u := DeliverAll(Run(EMPTY, ops), ds), DeliverAll(Run(EMPTY, ops), es);
      && t.txs == u.txs && t.events == u.events && |t.invoices| == |u.invoices|
      && forall i :: 0 <= i < |t.invoices| ==> SamePosition(t.invoices[i], u.invoices[i])
  {
    hide Run;
    var s := Run(EMPTY, ops);
    ReachableInv(ops);
    DeliverAllTxs(s, ds);
    DeliverAllTxs(s, es);
    DeliverAllOnlyMoves(s, ds);
    DeliverAllOnlyMoves(s, es);
    var t, u := DeliverAll(s, ds), DeliverAll(s, es);
    assert t.txs == u.txs;
    forall i | 0 <= i < |t.invoices| ensures SamePosition(t.invoices[i], u.invoices[i]) {
      SameTxsSamePosition(s, t, u, i);
    }
  }

  /** A confirmation that matches its payment wins, whatever failures arrive before or after it. */
  lemma MatchingSuccessWins(ops: seq<Op>, ds: seq<Delivery>, e: Event, k: nat)
    requires IdsDetermine(Arrived(ds)) && e in Arrived(ds)
    requires k < |Run(EMPTY, ops).txs| && Confirms(Run(EMPTY, ops), e, k)
    ensures
      var t := DeliverAll(Run(EMPTY, ops), ds);
      k < |t.txs| && t.txs[k].status.Succeeded?
  {
    hide Run;
    ReachableInv(ops);
    DeliverAllTxs(Run(EMPTY, ops), ds);
  }
}
