// Replays: what processing an event list with repeats does to the database,
// compared with processing each event once, in order of first delivery.

module Replay {
  import opened EscrowTypes
  import opened EventWire
  import opened EventFold

  // An id names one event.
  ghost predicate SameIdSameEvent(events: seq<ParsedEvent>) {
    forall i, j :: 0 <= i < |events| && 0 <= j < |events| && events[i].id == events[j].id ==> events[i] == events[j]
  }

  lemma SameIdPrefix(events: seq<ParsedEvent>, n: nat)
    requires n <= |events| && SameIdSameEvent(events)
    ensures SameIdSameEvent(events[..n])
  {
  }

  // The service after a list of deliveries, starting from nothing.
  function After(events: seq<ParsedEvent>): Service {
    if events == [] then Service(EmptyDb(), [])
    else Absorb(After(events[..|events| - 1]), events[|events| - 1])
  }

  lemma AfterSnoc(events: seq<ParsedEvent>, p: ParsedEvent)
    ensures After(events + [p]) == Absorb(After(events), p)
  {
  }

  predicate Delivered(events: seq<ParsedEvent>, id: nat) {
    exists i :: 0 <= i < |events| && events[i].id == id
  }

  lemma DeliveredSnoc(events: seq<ParsedEvent>, p: ParsedEvent, id: nat)
    ensures Delivered(events + [p], id) <==> Delivered(events, id) || p.id == id
  {
    assert (events + [p])[|events|] == p;
    if Delivered(events, id) {
      var i :| 0 <= i < |events| && events[i].id == id;
      assert (events + [p])[i].id == id;
    }
  }

  function Firsts(events: seq<ParsedEvent>): seq<ParsedEvent> {
    if events == [] then []
    else
      var init, last := events[..|events| - 1], events[|events| - 1];
      if Delivered(init, last.id) then Firsts(init) else Firsts(init) + [last]
  }

  lemma FirstsSnoc(events: seq<ParsedEvent>, p: ParsedEvent)
    ensures Firsts(events + [p]) == if Delivered(events, p.id) then Firsts(events) else Firsts(events) + [p]
  {
  }

  // ------------------------------------------------------------ campaigns and users

  predicate Creates(p: ParsedEvent, campaign: string) {
    p.data.EscrowCreatedData? && p.campaign == campaign
  }

  ghost predicate Created(events: seq<ParsedEvent>, campaign: string) {
    exists j :: 0 <= j < |events| && Creates(events[j], campaign)
  }

  predicate Names(p: ParsedEvent, user: string) {
    EnsuresUser(p.data) && UserOf(p.data).value == user
  }

  ghost predicate Named(events: seq<ParsedEvent>, user: string) {
    exists j :: 0 <= j < |events| && Names(events[j], user)
  }

  lemma CreatedSnoc(events: seq<ParsedEvent>, campaign: string)
    requires events != []
    ensures Created(events, campaign)
       <==> Created(events[..|events| - 1], campaign) || Creates(events[|events| - 1], campaign)
  {
  }

  lemma NamedSnoc(events: seq<ParsedEvent>, user: string)
    requires events != []
    ensures Named(events, user) <==> Named(events[..|events| - 1], user) || Names(events[|events| - 1], user)
  {
  }

  // What one event adds to the two tables, and to the record of what is processed.
  lemma {:induction false} AbsorbAdds(s: Service, p: ParsedEvent)
    ensures var s', stored := Absorb(s, p), Persist(s.db, p).stored;
            && s'.db.transactions == (if stored then s.db.transactions[p.id := p] else s.db.transactions)
            && s'.broadcasts == (if stored then s.broadcasts + [p] else s.broadcasts)
            && (stored ==> p.id !in s.db.transactions)
            && (p.id in s.db.transactions ==> s' == s)
            && (p.id !in s.db.transactions ==>
                  && s'.db.users == UsersWith(s.db.users, p.data)
                  && s'.db.campaigns.Keys ==
                     s.db.campaigns.Keys + if p.data.EscrowCreatedData? then {p.campaign} else {})
  {
  }

  lemma {:induction false} RecordedWasDelivered(events: seq<ParsedEvent>, id: nat)
    requires id in After(events).db.transactions
    ensures Delivered(events, id)
  {
    var init, last := events[..|events| - 1], events[|events| - 1];
    AbsorbAdds(After(init), last);
    if id in After(init).db.transactions {
      RecordedWasDelivered(init, id);
      var i :| 0 <= i < |init| && init[i].id == id;
      assert events[i].id == id;
    }
  }

  // A recorded event came before, as itself.
  lemma {:induction false} RecordedBefore(events: seq<ParsedEvent>) returns (i: nat)
    requires events != [] && SameIdSameEvent(events)
    requires events[|events| - 1].id in After(events[..|events| - 1]).db.transactions
    ensures i < |events| - 1 && events[i] == events[|events| - 1]
  {
    var init, last := events[..|events| - 1], events[|events| - 1];
    RecordedWasDelivered(init, last.id);
    i :| 0 <= i < |init| && init[i].id == last.id;
    assert init[i] == events[i];
  }

  // A campaign's row exists exactly if its creation has been delivered.
  lemma {:induction false} RowIffCreated(events: seq<ParsedEvent>, campaign: string)
    requires SameIdSameEvent(events)
    ensures campaign in After(events).db.campaigns <==> Created(events, campaign)
  {
    if events != [] {
      var init, last := events[..|events| - 1], events[|events| - 1];
      SameIdPrefix(events, |init|);
      RowIffCreated(init, campaign);
      CreatedSnoc(events, campaign);
      AbsorbAdds(After(init), last);
      if last.id in After(init).db.transactions {
        var i := RecordedBefore(events);
        assert init[i] == last;
      }
    }
  }

  // An address is a user exactly if an event has been delivered whose handler makes
  // it one, stored or not.
  lemma {:induction false} UserIffNamed(events: seq<ParsedEvent>, user: string)
    requires SameIdSameEvent(events)
    ensures user in After(events).db.users <==> Named(events, user)
  {
    if events != [] {
      var init, last := events[..|events| - 1], events[|events| - 1];
      SameIdPrefix(events, |init|);
      UserIffNamed(init, user);
      NamedSnoc(events, user);
      AbsorbAdds(After(init), last);
      if last.id in After(init).db.transactions {
        var i := RecordedBefore(events);
        assert init[i] == last;
      }
    }
  }

  // An event finds what it needs: its campaign's row, unless it creates it, and its
  // address among the users, unless its handler makes it one.
  ghost predicate Ready(events: seq<ParsedEvent>, p: ParsedEvent) {
    && (p.data.EscrowCreatedData? || Created(events, p.campaign))
    && (UserOf(p.data).None? || EnsuresUser(p.data) || Named(events, UserOf(p.data).value))
  }

  // Then, unless it is stored already, and only then, it is stored.
  lemma {:induction false} StoredIfReady(events: seq<ParsedEvent>, p: ParsedEvent)
    requires SameIdSameEvent(events)
    ensures Persist(After(events).db, p).stored <==> Ready(events, p) && p.id !in After(events).db.transactions
  {
    RowIffCreated(events, p.campaign);
    if UserOf(p.data).Some? {
      UserIffNamed(events, UserOf(p.data).value);
    }
  }

  // What is found is found later on, too.
  lemma ReadyStays(events: seq<ParsedEvent>, n: nat, p: ParsedEvent)
    requires n <= |events| && Ready(events[..n], p)
    ensures Ready(events, p)
  {
    if !p.data.EscrowCreatedData? {
      var j :| 0 <= j < n && Creates(events[..n][j], p.campaign);
      assert Creates(events[j], p.campaign);
    }
    if UserOf(p.data).Some? && !EnsuresUser(p.data) {
      var j :| 0 <= j < n && Names(events[..n][j], UserOf(p.data).value);
      assert Names(events[j], UserOf(p.data).value);
    }
  }

  // ------------------------------------------------------------ what is stored

  // The deliveries that find what they need.
  ghost function Storable(events: seq<ParsedEvent>): seq<ParsedEvent> {
    if events == [] then []
    else
      var init, last := events[..|events| - 1], events[|events| - 1];
      Storable(init) + if Ready(init, last) then [last] else []
  }

  // The service has stored and broadcast exactly these, each at its first occurrence.
  ghost predicate Holds(s: Service, events: seq<ParsedEvent>) {
    s.broadcasts == Firsts(events) && forall id :: id in s.db.transactions <==> Delivered(events, id)
  }

  lemma {:induction false} HoldsNext(s: Service, events: seq<ParsedEvent>, p: ParsedEvent)
    requires Holds(s, events) && (Persist(s.db, p).stored <==> p.id !in s.db.transactions)
    ensures Holds(Absorb(s, p), events + [p])
  {
    FirstsSnoc(events, p);
    AbsorbAdds(s, p);
    forall id ensures Delivered(events + [p], id) <==> Delivered(events, id) || p.id == id {
      DeliveredSnoc(events, p, id);
    }
  }

  // After any deliveries, what is stored and broadcast are the first storable ones,
  // in their order.
  lemma {:induction false} StoredAreFirstStorable(events: seq<ParsedEvent>)
    requires SameIdSameEvent(events)
    ensures Holds(After(events), Storable(events))
  {
    if events != [] {
      var init, last := events[..|events| - 1], events[|events| - 1];
      SameIdPrefix(events, |init|);
      StoredAreFirstStorable(init);
      StoredIfReady(init, last);
      if Ready(init, last) {
        HoldsNext(After(init), Storable(init), last);
      } else {
        AbsorbAdds(After(init), last);
        assert Storable(events) == Storable(init);
      }
    }
  }

  ghost predicate ReadyAt(events: seq<ParsedEvent>, k: nat, id: nat) {
    k < |events| && events[k].id == id && Ready(events[..k], events[k])
  }

  // So an event is stored exactly if one of its deliveries found what it needs.
  lemma {:induction false} StoredIffReady(events: seq<ParsedEvent>, id: nat)
    requires SameIdSameEvent(events)
    ensures id in After(events).db.transactions <==> exists k :: ReadyAt(events, k, id)
  {
    StoredAreFirstStorable(events);
    StorableIffReady(events, id);
  }

  lemma {:induction false} StorableIffReady(events: seq<ParsedEvent>, id: nat)
    ensures Delivered(Storable(events), id) <==> exists k :: ReadyAt(events, k, id)
  {
    if events != [] {
      var init, last := events[..|events| - 1], events[|events| - 1];
      StorableIffReady(init, id);
      forall k: nat
        ensures ReadyAt(events, k, id) <==> ReadyAt(init, k, id) || (k == |init| && ReadyAt(events, k, id))
      {
        if k < |init| { assert events[..k] == init[..k]; }
      }
      if Ready(init, last) {
        DeliveredSnoc(Storable(init), last, id);
        assert ReadyAt(events, |init|, last.id);
      } else {
        assert Storable(events) == Storable(init);
      }
    }
  }

  // ------------------------------------------------------------ what repeats store

  // The same events stored and broadcast, the same investments and users, and rows
  // for the same campaigns.
  ghost predicate Same(s: Service, s': Service) {
    && s.broadcasts == s'.broadcasts && s.db.transactions == s'.db.transactions
    && s.db.investments == s'.db.investments && s.db.users == s'.db.users
    && s.db.campaigns.Keys == s'.db.campaigns.Keys
  }

  lemma {:induction false} AbsorbSame(s: Service, s': Service, p: ParsedEvent)
    requires Same(s, s')
    ensures Same(Absorb(s, p), Absorb(s', p))
  {
  }

  // An event that failed at i, although it came again at k when it could be stored.
  ghost predicate Revived(events: seq<ParsedEvent>, i: nat, k: nat) {
    && i < k < |events| && events[i] == events[k]
    && !Ready(events[..i], events[i]) && Ready(events[..k], events[k])
  }

  ghost predicate AnyRevived(events: seq<ParsedEvent>) {
    exists i: nat, k: nat :: Revived(events, i, k)
  }

  // Repeats change nothing about what is stored exactly if no event is revived.
  lemma {:induction false} ReplayStoresSameIff(events: seq<ParsedEvent>)
    requires SameIdSameEvent(events)
    ensures Same(After(events), After(Firsts(events))) <==> !AnyRevived(events)
  {
    if AnyRevived(events) {
      var i: nat, k: nat :| Revived(events, i, k);
      assert ReadyAt(events, k, events[k].id);
      StoredIffReady(events, events[k].id);
      NotInFirsts(events, i);
    } else {
      Harmless(events);
    }
  }

  lemma {:induction false} Harmless(events: seq<ParsedEvent>)
    requires SameIdSameEvent(events) && !AnyRevived(events)
    ensures Same(After(events), After(Firsts(events)))
  {
    if events != [] {
      var init, last := events[..|events| - 1], events[|events| - 1];
      NotRevivedBefore(events);
      SameIdPrefix(events, |init|);
      Harmless(init);
      if Delivered(init, last.id) {
        var i :| 0 <= i < |init| && init[i].id == last.id;
        assert events[i] == last;
        RepeatStoresNothing(events, i);
      } else {
        AfterSnoc(Firsts(init), last);
        AbsorbSame(After(init), After(Firsts(init)), last);
      }
    }
  }

  lemma NotRevivedBefore(events: seq<ParsedEvent>)
    requires events != [] && !AnyRevived(events)
    ensures !AnyRevived(events[..|events| - 1])
  {
    var init := events[..|events| - 1];
    forall i: nat, k: nat ensures !Revived(init, i, k) {
      if i < k < |init| {
        assert init[..i] == events[..i] && init[..k] == events[..k];
        assert !Revived(events, i, k);
      }
    }
  }

  // The last event, delivered before at i, is stored already or still fails.
  lemma {:induction false} RepeatStoresNothing(events: seq<ParsedEvent>, i: nat)
    requires SameIdSameEvent(events) && !AnyRevived(events)
    requires i < |events| - 1 && events[i] == events[|events| - 1]
    ensures Same(After(events), After(events[..|events| - 1]))
  {
    var init, last := events[..|events| - 1], events[|events| - 1];
    SameIdPrefix(events, |init|);
    StoredIfReady(init, last);
    assert init[..i] == events[..i] && init[i] == events[i] && events[..|init|] == init;
    if Ready(events[..i], last) {
      assert ReadyAt(init, i, last.id);
      StoredIffReady(init, last.id);
    } else {
      assert !Revived(events, i, |init|);
    }
    RepeatedUser(init, i);
    AbsorbUnstored(After(init), last);
  }

  // The address of a delivered event whose handler makes it a user is one.
  lemma {:induction false} RepeatedUser(events: seq<ParsedEvent>, i: nat)
    requires SameIdSameEvent(events) && i < |events|
    ensures UsersWith(After(events).db.users, events[i].data) == After(events).db.users
  {
    if EnsuresUser(events[i].data) {
      UserIffNamed(events, UserOf(events[i].data).value);
      assert Names(events[i], UserOf(events[i].data).value);
    }
  }

  // An event that is not stored changes a row at most.
  lemma {:induction false} AbsorbUnstored(s: Service, p: ParsedEvent)
    requires !Persist(s.db, p).stored && UsersWith(s.db.users, p.data) == s.db.users
    ensures Same(Absorb(s, p), s)
    ensures Absorb(s, p) == s <==>
              p.id in s.db.transactions || RowStep(RowOf(s.db, p.campaign), p.data).None?
              || RowStep(RowOf(s.db, p.campaign), p.data) == RowOf(s.db, p.campaign)
  {
    var row := RowStep(RowOf(s.db, p.campaign), p.data);
    if p.id !in s.db.transactions && row.Some? {
      assert p.campaign in s.db.campaigns;
      if row == RowOf(s.db, p.campaign) {
        assert s.db.campaigns[p.campaign := row.value] == s.db.campaigns;
      }
    }
  }

  lemma {:induction false} FirstsAreDelivered(events: seq<ParsedEvent>)
    ensures forall p :: p in Firsts(events) ==> p in events
  {
    if events != [] {
      FirstsAreDelivered(events[..|events| - 1]);
    }
  }

  lemma {:induction false} DeliveredInFirsts(events: seq<ParsedEvent>, id: nat)
    requires Delivered(events, id)
    ensures Delivered(Firsts(events), id)
  {
    var init, last := events[..|events| - 1], events[|events| - 1];
    assert events == init + [last];
    DeliveredSnoc(init, last, id);
    FirstsSnoc(init, last);
    if Delivered(init, id) {
      DeliveredInFirsts(init, id);
    }
    if !Delivered(init, last.id) {
      DeliveredSnoc(Firsts(init), last, id);
    }
  }

  // Each first delivery stands somewhere in the list, after the earlier ones.
  lemma {:induction false} FirstAt(events: seq<ParsedEvent>, k: nat) returns (m: nat)
    requires k < |Firsts(events)|
    ensures m < |events| && events[m] == Firsts(events)[k] && Firsts(events[..m]) == Firsts(events)[..k]
    ensures !Delivered(events[..m], events[m].id)
  {
    var init, last := events[..|events| - 1], events[|events| - 1];
    if k < |Firsts(init)| {
      m := FirstAt(init, k);
      assert events[..m] == init[..m];
    } else {
      m := |init|;
    }
  }

  lemma FirstsNeed(events: seq<ParsedEvent>, p: ParsedEvent)
    requires Ready(Firsts(events), p)
    ensures Ready(events, p)
  {
    var firsts := Firsts(events);
    FirstsAreDelivered(events);
    if !p.data.EscrowCreatedData? {
      var j :| 0 <= j < |firsts| && Creates(firsts[j], p.campaign);
      assert firsts[j] in events;
    }
    if UserOf(p.data).Some? && !EnsuresUser(p.data) {
      var j :| 0 <= j < |firsts| && Names(firsts[j], UserOf(p.data).value);
      assert firsts[j] in events;
    }
  }

  lemma {:induction false} FirstsSameId(events: seq<ParsedEvent>)
    requires SameIdSameEvent(events)
    ensures SameIdSameEvent(Firsts(events))
  {
    var firsts := Firsts(events);
    FirstsAreDelivered(events);
    forall i, j | 0 <= i < |firsts| && 0 <= j < |firsts| && firsts[i].id == firsts[j].id
      ensures firsts[i] == firsts[j]
    {
      assert firsts[i] in events && firsts[j] in events;
    }
  }

  lemma DeliveredAt(events: seq<ParsedEvent>, i: nat, m: nat)
    requires i < |events| && m <= |events|
    ensures i < m ==> Delivered(events[..m], events[i].id)
  {
    if i < m { assert events[..m][i] == events[i]; }
  }

  // Where each event is delivered once, one that failed is never stored.
  lemma {:induction false} NotInFirsts(events: seq<ParsedEvent>, i: nat)
    requires SameIdSameEvent(events) && i < |events| && !Ready(events[..i], events[i])
    ensures events[i].id !in After(Firsts(events)).db.transactions
  {
    var firsts := Firsts(events);
    FirstsSameId(events);
    StoredIffReady(firsts, events[i].id);
    if k: nat :| ReadyAt(firsts, k, events[i].id) {
      var m := FirstAt(events, k);
      FirstsNeed(events[..m], events[i]);
      DeliveredAt(events, i, m);
      assert events[..i][..m] == events[..m];
      ReadyStays(events[..i], m, events[i]);
    }
  }

  // ------------------------------------------------------------ what repeats show

  ghost predicate Unseen(events: seq<ParsedEvent>) {
    After(events) == After(Firsts(events))
  }

  // At no time does the database tell that events came repeatedly.
  ghost predicate Steady(events: seq<ParsedEvent>) {
    forall n :: 0 <= n <= |events| ==> Unseen(events[..n])
  }

  // A repeat that takes effect: the event is not stored yet, although its campaign
  // has a row by now, and either its address is a user by now or its handler writes
  // something else into the row than what is there.
  ghost predicate TakesEffect(events: seq<ParsedEvent>, k: nat)
    requires k < |events|
  {
    var db, p := After(events[..k]).db, events[k];
    && Delivered(events[..k], p.id) && p.id !in db.transactions && p.campaign in db.campaigns
    && (UserKnown(db.users, p.data) || RowStep(RowOf(db, p.campaign), p.data) != RowOf(db, p.campaign))
  }

  ghost predicate NoneTakesEffect(events: seq<ParsedEvent>) {
    forall k :: 0 <= k < |events| ==> !TakesEffect(events, k)
  }

  // No repeat ever shows exactly if none takes effect.
  lemma {:induction false} SteadyIff(events: seq<ParsedEvent>)
    requires SameIdSameEvent(events)
    ensures Steady(events) <==> NoneTakesEffect(events)
  {
    if events == [] {
      assert events[..0] == [];
    } else {
      var init := events[..|events| - 1];
      SameIdPrefix(events, |init|);
      SteadyIff(init);
      SteadySnoc(events);
      NoneSnoc(events);
      if Steady(init) {
        SteadyNow(init);
        LastShows(events);
      }
    }
  }

  lemma SteadyNow(events: seq<ParsedEvent>)
    requires Steady(events)
    ensures Unseen(events)
  {
    assert events[..|events|] == events;
  }

  lemma {:induction false} NoneSnoc(events: seq<ParsedEvent>)
    requires events != []
    ensures NoneTakesEffect(events) <==>
              NoneTakesEffect(events[..|events| - 1]) && !TakesEffect(events, |events| - 1)
  {
    var init := events[..|events| - 1];
    forall k | 0 <= k < |init| ensures TakesEffect(events, k) <==> TakesEffect(init, k) {
      assert events[..k] == init[..k];
    }
  }

  lemma {:induction false} SteadySnoc(events: seq<ParsedEvent>)
    requires events != []
    ensures Steady(events) <==> Steady(events[..|events| - 1]) && Unseen(events)
  {
    var init := events[..|events| - 1];
    if Steady(events) {
      SteadyNow(events);
      forall n | 0 <= n <= |init| ensures Unseen(init[..n]) {
        assert init[..n] == events[..n];
      }
    }
    if Steady(init) && Unseen(events) {
      forall n | 0 <= n <= |events| ensures Unseen(events[..n]) {
        if n <= |init| {
          assert init[..n] == events[..n];
        } else {
          assert events[..n] == events;
        }
      }
    }
  }

  lemma {:induction false} LastShows(events: seq<ParsedEvent>)
    requires events != [] && SameIdSameEvent(events)
    requires Unseen(events[..|events| - 1])
    ensures Unseen(events) <==> !TakesEffect(events, |events| - 1)
  {
    var init, last := events[..|events| - 1], events[|events| - 1];
    if Delivered(init, last.id) {
      var i :| 0 <= i < |init| && init[i].id == last.id;
      assert init[i] == last;
      SameIdPrefix(events, |init|);
      RepeatedUser(init, i);
      RepeatShows(After(init), last, init, i);
    } else {
      AfterSnoc(Firsts(init), last);
    }
  }

  lemma {:induction false} RepeatShows(s: Service, p: ParsedEvent, init: seq<ParsedEvent>, i: nat)
    requires SameIdSameEvent(init) && s == After(init) && i < |init| && init[i] == p
    requires UsersWith(s.db.users, p.data) == s.db.users
    ensures Absorb(s, p) == s <==>
              p.id in s.db.transactions || p.campaign !in s.db.campaigns
              || (!UserKnown(s.db.users, p.data) && RowStep(RowOf(s.db, p.campaign), p.data) == RowOf(s.db, p.campaign))
  {
    AbsorbAdds(s, p);
    if Persist(s.db, p).stored {
      if p.data.EscrowCreatedData? {
        RowIffCreated(init, p.campaign);
        assert Creates(init[i], p.campaign);
      }
      assert p.id in Absorb(s, p).db.transactions;
    } else {
      AbsorbUnstored(s, p);
    }
  }

  // ------------------------------------------------------------ raw events

  function ParsedOf(raws: seq<Raw>): seq<ParsedEvent> {
    if raws == [] then []
    else
      var init, p := ParsedOf(raws[..|raws| - 1]), ParseEvent(raws[|raws| - 1]);
      if p.Parsed? then init + [p.event] else init
  }

  // Events that do not parse leave no trace.
  lemma {:induction false} ProcessAllIsAfter(raws: seq<Raw>)
    ensures ProcessAll(Service(EmptyDb(), []), raws) == After(ParsedOf(raws))
  {
    if raws != [] {
      var init, p := raws[..|raws| - 1], ParseEvent(raws[|raws| - 1]);
      ProcessAllIsAfter(init);
      if p.Parsed? {
        AfterSnoc(ParsedOf(init), p.event);
      }
    }
  }

  // ------------------------------------------------------------ revivals

  lemma {:induction false} RevivedBetween(one: seq<ParsedEvent>, f: ParsedEvent, two: seq<ParsedEvent>)
    requires !Ready(one, f) && Ready(one + [f] + two, f)
    ensures AnyRevived(one + [f] + two + [f])
  {
    var events, k := one + [f] + two + [f], |one| + 1 + |two|;
    assert events[..|one|] == one && events[..k] == one + [f] + two;
    assert events[|one|] == f && events[k] == f;
    assert Revived(events, |one|, k);
  }

  // The condition matters: an event that finds its campaign only after the creation
  // fails when delivered before it, and a second delivery after it succeeds.
  lemma {:induction false} ReplayCanRevive(f: ParsedEvent, c: ParsedEvent)
    requires !f.data.EscrowCreatedData? && Creates(c, f.campaign) && f.id != c.id && Ready([c], f)
    ensures var events := [f] + [c] + [f];
            Firsts(events) == [f] + [c] && !Same(After(events), After(Firsts(events)))
  {
    FirstsOfTwo(f, c);
    FirstsSnoc([f] + [c], f);
    assert ([f] + [c])[0].id == f.id;
    ReadyLater([f], [c], f);
    assert [] + [f] + [c] == [f] + [c];
    RevivedBetween([], f, [c]);
    ReplayStoresSameIff([f] + [c] + [f]);
  }

  // And so does a settlement paid to an address that becomes a user only after it.
  lemma {:induction false} PayeeCanRevive(c: ParsedEvent, f: ParsedEvent, m: ParsedEvent)
    requires Creates(c, f.campaign) && f.data.SettledData? && c.id != f.id && f.id != m.id && c.id != m.id
    requires Names(m, f.data.farmer) && !Names(c, f.data.farmer)
    ensures var events := [c] + [f] + [m] + [f];
            Firsts(events) == [c] + [f] + [m] && !Same(After(events), After(Firsts(events)))
  {
    FirstsOfFour(c, f, m);
    PayeeReady(c, f, m);
    RevivedBetween([c], f, [m]);
    ReplayStoresSameIff([c] + [f] + [m] + [f]);
  }

  lemma {:induction false} PayeeReady(c: ParsedEvent, f: ParsedEvent, m: ParsedEvent)
    requires Creates(c, f.campaign) && f.data.SettledData? && Names(m, f.data.farmer) && !Names(c, f.data.farmer)
    ensures !Ready([c], f) && Ready([c] + [f] + [m], f)
  {
    var three := [c] + [f] + [m];
    assert Creates(three[0], f.campaign) && Names(three[2], f.data.farmer);
  }

  lemma {:induction false} FirstsOfFour(c: ParsedEvent, f: ParsedEvent, m: ParsedEvent)
    requires c.id != f.id && f.id != m.id && c.id != m.id
    ensures Firsts([c] + [f] + [m] + [f]) == [c] + [f] + [m]
  {
    FirstsOfTwo(c, f);
    FirstsSnoc([c] + [f], m);
    FirstsSnoc([c] + [f] + [m], f);
    assert ([c] + [f] + [m])[1].id == f.id;
  }

  lemma FirstsOfTwo(a: ParsedEvent, b: ParsedEvent)
    requires a.id != b.id
    ensures Firsts([a] + [b]) == [a] + [b]
  {
    FirstsSnoc([], a);
    assert [] + [a] == [a];
    FirstsSnoc([a], b);
  }

  lemma ReadyLater(before: seq<ParsedEvent>, events: seq<ParsedEvent>, p: ParsedEvent)
    requires Ready(events, p)
    ensures Ready(before + events, p)
  {
    var all := before + events;
    if !p.data.EscrowCreatedData? {
      var j :| 0 <= j < |events| && Creates(events[j], p.campaign);
      assert all[|before| + j] == events[j];
    }
    if UserOf(p.data).Some? && !EnsuresUser(p.data) {
      var j :| 0 <= j < |events| && Names(events[j], UserOf(p.data).value);
      assert all[|before| + j] == events[j];
    }
  }
}
