/** Overlapping catalogue-sync jobs. A job is four steps: the upsert, which is a transaction, and outside it reading
    the shop, reading the active items, and writing back the layouts it merged. Jobs carry no job id and five workers
    take them, so the steps of different jobs interleave freely. */
module CatalogueJobs {
  import opened Wrappers
  import opened Catalogue

  /** Where a job is after its upsert, with what it has read. */
  datatype Work =
    | Upserted(studioId: string)
    | HasShop(studioId: string, shop: Shop)
    | HasActive(studioId: string, shop: Shop, active: seq<nat>)

  datatype System = System(state: State, works: map<nat, Work>)

  datatype Event =
    | Upsert(job: nat, studioId: string, feed: seq<RemoteItem>, now: nat)
    | ReadShop(job: nat)
    | ReadActive(job: nat, keys: seq<Key>)
    | WriteShop(job: nat)
    | Stop(job: nat)

  /** Only a layout that the job merged is written, over whatever is stored by then. */
  function WrittenDoc(stored: Document, seen: Document, active: seq<nat>): Document
  {
    if Merge(seen, active).Some? then Readable(Merge(seen, active).value) else stored
  }

  function Written(stored: Shop, seen: Shop, active: seq<nat>): Shop
  {
    Shop(WrittenDoc(stored.layout, seen.layout, active), WrittenDoc(stored.draftLayout, seen.draftLayout, active))
  }

  ghost predicate Enabled(s: System, e: Event)
  {
    match e
    case Upsert(job, _, feed, _) => job !in s.works && Storable(feed)
    case ReadShop(job) => job in s.works && s.works[job].Upserted?
    case ReadActive(job, keys) =>
      job in s.works && s.works[job].HasShop? && ListsActive(s.state.items, s.works[job].studioId, keys)
    case WriteShop(job) => job in s.works && s.works[job].HasActive? && s.works[job].studioId in s.state.shops
    case Stop(job) => job in s.works
  }

  ghost function Step(s: System, e: Event): System
  {
    if !Enabled(s, e) then s else
      match e
      case Upsert(job, studioId, feed, now) =>
        System(s.state.(items := Synced(s.state.items, studioId, feed, now)), s.works[job := Upserted(studioId)])
      case ReadShop(job) =>
        var id := s.works[job].studioId;
        if id in s.state.shops then s.(works := s.works[job := HasShop(id, s.state.shops[id])])
        else s.(works := s.works - {job})
      case ReadActive(job, keys) =>
        s.(works := s.works[job := HasActive(s.works[job].studioId, s.works[job].shop, IdsOf(s.state.items, keys))])
      case WriteShop(job) =>
        var work := s.works[job];
        System(s.state.(shops := s.state.shops[work.studioId := Written(s.state.shops[work.studioId], work.shop, work.active)]),
               s.works - {job})
      case Stop(job) => s.(works := s.works - {job})
  }

  ghost function Run(s: System, events: seq<Event>): System
  {
    if events == [] then s else Step(Run(s, events[..|events| - 1]), events[|events| - 1])
  }

  // ---------------------------------------------------------------- what every interleaving keeps

  lemma StepKeepsItems(s: System, e: Event)
    requires IdsInv(s.state.items)
    ensures var t := Step(s, e);
      IdsInv(t.state.items) && RowsKept(s.state.items, t.state.items) && t.state.shops.Keys == s.state.shops.Keys
  {
    hide Synced, IdsInv, RowsKept, ListsActive, Merge, FieldsOf;
    RowsStay(s.state.items);
    if Enabled(s, e) && e.Upsert? {
      SyncKeepsIds(s.state.items, e.studioId, e.feed, e.now);
      SyncedKeepsRows(s.state.items, e.studioId, e.feed, e.now);
    }
  }

  lemma RowsStay(c: Items)
    ensures RowsKept(c, c)
  {}

  lemma SyncedKeepsRows(c: Items, studioId: string, feed: seq<RemoteItem>, now: nat)
    requires Storable(feed)
    ensures RowsKept(c, Synced(c, studioId, feed, now))
  {
    hide Synced, FieldsOf, LastOf;
    forall k | k in c.rows
      ensures k in Synced(c, studioId, feed, now).rows
      ensures Synced(c, studioId, feed, now).rows[k].id == c.rows[k].id
      ensures Synced(c, studioId, feed, now).rows[k].createdAt == c.rows[k].createdAt
    {
      SyncMeaning(c, studioId, feed, now, k);
    }
  }

  /** Over every interleaving of the steps of any jobs, stopped midway or not, item ids stay unique and no row is
      deleted or changes its id. */
  lemma {:induction false} ItemsInEveryRun(s: System, events: seq<Event>)
    requires IdsInv(s.state.items)
    ensures var t := Run(s, events);
      IdsInv(t.state.items) && RowsKept(s.state.items, t.state.items) && t.state.shops.Keys == s.state.shops.Keys
  {
    hide Step, IdsInv, RowsKept;
    if events == [] {
      RowsStay(s.state.items);
    } else {
      var t := Run(s, events[..|events| - 1]);
      ItemsInEveryRun(s, events[..|events| - 1]);
      StepKeepsItems(t, events[|events| - 1]);
      RowsKeptTransitive(s.state.items, t.state.items, Run(s, events).state.items);
    }
  }

  // ---------------------------------------------------------------- growth

  /** The shop is still what the job read. */
  predicate Fresh(s: System, job: nat)
  {
    job in s.works && !s.works[job].Upserted? && s.works[job].studioId in s.state.shops
    && s.works[job].shop == s.state.shops[s.works[job].studioId]
  }

  /** No write of a shop falls between another job's reading and writing it. */
  ghost predicate FreshRun(s: System, events: seq<Event>)
  {
    events == [] ||
    var before, e := events[..|events| - 1], events[|events| - 1];
    FreshRun(s, before) && (e.WriteShop? && Enabled(Run(s, before), e) ==> Fresh(Run(s, before), e.job))
  }

  lemma FreshWriteGrows(doc: Document, active: seq<nat>)
    ensures WrittenDoc(doc, doc, active) == Merged(doc, active) && Grown(doc, WrittenDoc(doc, doc, active))
  {
    MergeOnlyAppends(doc, active);
  }

  lemma StepGrows(s: System, e: Event, id: string)
    requires id in s.state.shops && (e.WriteShop? && Enabled(s, e) ==> Fresh(s, e.job))
    ensures id in Step(s, e).state.shops && ShopGrown(s.state.shops[id], Step(s, e).state.shops[id])
  {
    hide Synced, ListsActive, Grown, Merge, WrittenDoc;
    GrownReflexive(s.state.shops[id].layout);
    GrownReflexive(s.state.shops[id].draftLayout);
    if e.WriteShop? && Enabled(s, e) {
      FreshWriteGrows(s.works[e.job].shop.layout, s.works[e.job].active);
      FreshWriteGrows(s.works[e.job].shop.draftLayout, s.works[e.job].active);
    }
  }

  /** Where no write falls between another job's read and write, layouts only grow at the end of their first
      section. */
  lemma {:induction false} FreshRunGrows(s: System, events: seq<Event>, id: string)
    requires id in s.state.shops && FreshRun(s, events)
    ensures id in Run(s, events).state.shops && ShopGrown(s.state.shops[id], Run(s, events).state.shops[id])
  {
    hide Step, Grown, Enabled, Fresh;
    if events == [] {
      GrownReflexive(s.state.shops[id].layout);
      GrownReflexive(s.state.shops[id].draftLayout);
    } else {
      FreshRunGrows(s, events[..|events| - 1], id);
      var t := Run(s, events[..|events| - 1]);
      StepGrows(t, events[|events| - 1], id);
      var u := Run(s, events);
      GrownTransitive(s.state.shops[id].layout, t.state.shops[id].layout, u.state.shops[id].layout);
      GrownTransitive(s.state.shops[id].draftLayout, t.state.shops[id].draftLayout, u.state.shops[id].draftLayout);
    }
  }

  /** What was appended to the first section since a document was read. */
  function Added(seen: Document, stored: Document): seq<nat>
    requires HasSection(seen) && Grown(seen, stored)
  {
    stored.layout.sections[0].itemIds[|seen.layout.sections[0].itemIds|..]
  }

  /** A single write leaves a layout grown exactly if it writes nothing, or appends again, first, all that was
      appended since the job read it. */
  lemma WriteGrowsIff(seen: Document, stored: Document, active: seq<nat>)
    requires Grown(seen, stored)
    ensures Grown(stored, WrittenDoc(stored, seen, active)) <==>
      Merge(seen, active).None? ||
      Added(seen, stored) <= Missing(Elements(Entries(seen.layout.sections)), active)
  {
    hide Missing, Elements, Entries;
    GrownReflexive(stored);
    if Merge(seen, active).Some? {
      var was, now := seen.layout.sections, stored.layout.sections;
      var missing := Missing(Elements(Entries(was)), active);
      var after := WrittenDoc(stored, seen, active).layout.sections;
      assert SectionGrown(was[0], now[0], true) && now[0].itemIds == was[0].itemIds + Added(seen, stored);
      assert after[0].itemIds == was[0].itemIds + missing;
      assert forall i :: 1 <= i < |was| ==> SectionGrown(was[i], now[i], false) && after[i] == was[i];
      if Added(seen, stored) <= missing {
        assert now[0].itemIds <= after[0].itemIds;
      }
      if Grown(stored, WrittenDoc(stored, seen, active)) {
        assert SectionGrown(now[0], after[0], true);
        assert now[0].itemIds <= after[0].itemIds;
        PrefixCancels(was[0].itemIds, Added(seen, stored), missing);
      }
    }
  }

  lemma PrefixCancels(a: seq<nat>, b: seq<nat>, c: seq<nat>)
    requires a + b <= a + c
    ensures b <= c
  {
    assert forall i :: 0 <= i < |b| ==> b[i] == (a + b)[|a| + i] && c[i] == (a + c)[|a| + i];
  }

  /** The layout names only items that exist. */
  ghost predicate KnownEntries(doc: Document, nextId: nat)
  {
    doc.Readable? ==> forall x :: x in Entries(doc.layout.sections) ==> x < nextId
  }

  /** An item the store has never seen, for a studio. */
  predicate IsNew(c: Items, studioId: string, item: RemoteItem)
  {
    Key(studioId, item.externalId) !in c.rows && FieldsOf(item).Some?
  }

  lemma OnlyNewActive(c: Items, studioId: string, item: RemoteItem, now: nat)
    requires IsNew(c, studioId, item)
    ensures Storable([item])
    ensures var d := Synced(c, studioId, [item], now); var k := Key(studioId, item.externalId);
      && ActiveKeys(d, studioId) == {k} && d.rows[k].id == c.nextId
      && ListsActive(d, studioId, [k]) && IdsOf(d, [k]) == [c.nextId]
  {
    hide FieldsOf;
    var k := Key(studioId, item.externalId);
    assert [item][..0] == [];
    assert [item][0] == item;
    assert ExternalIds([item]) == {item.externalId};
    FeedDecidesActive(c, studioId, [item], now);
    var up := UpsertAll(c, studioId, [item], now);
    assert UpsertAll(c, studioId, [], now) == c;
    assert up == UpsertOne(c, studioId, item.externalId, FieldsOf(item).value, now);
    assert k in ActiveKeys(Synced(c, studioId, [item], now), studioId);
  }

  /** The other half: whenever a shop has grown since a job read it, some continuation, without further writes in
      between, makes that job drop what was added. The studio's next feed need only list one new item. */
  lemma StaleReadCanDrop(s: System, job: nat, other: nat, item: RemoteItem, now: nat)
    requires job in s.works && s.works[job].HasShop? && other !in s.works && s.works[job].studioId in s.state.shops
    requires var seen, stored := s.works[job].shop.layout, s.state.shops[s.works[job].studioId].layout;
      HasSection(seen) && Grown(seen, stored) && stored != seen
      && KnownEntries(seen, s.state.items.nextId) && KnownEntries(stored, s.state.items.nextId)
    requires IsNew(s.state.items, s.works[job].studioId, item)
    ensures var id := s.works[job].studioId;
      var t := Run(s, [Upsert(other, id, [item], now), ReadActive(job, [Key(id, item.externalId)]), WriteShop(job)]);
      id in t.state.shops && !Grown(s.state.shops[id].layout, t.state.shops[id].layout)
  {
    hide Grown, Merge, FieldsOf, ListsActive, Synced, Run;
    var id := s.works[job].studioId;
    var seen, stored := s.works[job].shop.layout, s.state.shops[id].layout;
    OnlyNewActive(s.state.items, id, item, now);
    var a := Step(s, Upsert(other, id, [item], now));
    var b := Step(a, ReadActive(job, [Key(id, item.externalId)]));
    assert b.works[job] == HasActive(id, s.works[job].shop, [s.state.items.nextId]);
    var c := Step(b, WriteShop(job));
    assert c.state.shops[id].layout == WrittenDoc(stored, seen, [s.state.items.nextId]);
    RunThree(s, [Upsert(other, id, [item], now), ReadActive(job, [Key(id, item.externalId)]), WriteShop(job)]);
    NewItemDrops(seen, stored, s.state.items.nextId);
  }

  lemma NewItemDrops(seen: Document, stored: Document, id: nat)
    requires HasSection(seen) && Grown(seen, stored) && stored != seen
    requires KnownEntries(seen, id) && KnownEntries(stored, id)
    ensures !Grown(stored, WrittenDoc(stored, seen, [id]))
  {
    var shown := Elements(Entries(seen.layout.sections));
    assert [id][..0] == [];
    assert id !in Entries(seen.layout.sections);
    assert Missing(shown, [id]) == [id];
    WriteGrowsIff(seen, stored, [id]);
    NothingAdded(seen, stored);
    AddedIsShown(seen, stored);
    assert id !in Added(seen, stored);
    assert Added(seen, stored)[0] in Added(seen, stored) && Added(seen, stored)[0] != [id][0];
  }

  lemma NothingAdded(seen: Document, stored: Document)
    requires HasSection(seen) && Grown(seen, stored)
    ensures Added(seen, stored) == [] ==> stored == seen
  {
    var was, now := seen.layout.sections, stored.layout.sections;
    assert SectionGrown(was[0], now[0], true) && now[0].itemIds == was[0].itemIds + Added(seen, stored);
    assert forall i :: 1 <= i < |was| ==> SectionGrown(was[i], now[i], false) && now[i] == was[i];
    if Added(seen, stored) == [] {
      assert now[0] == was[0];
      assert now == was;
    }
  }

  lemma AddedIsShown(seen: Document, stored: Document)
    requires HasSection(seen) && Grown(seen, stored)
    ensures forall x :: x in Added(seen, stored) ==> x in Entries(stored.layout.sections)
  {
    var now := stored.layout.sections;
    assert Entries(now) == now[0].itemIds + Entries(now[1..]);
    assert forall x :: x in Added(seen, stored) ==> x in now[0].itemIds;
  }

  lemma RunThree(s: System, events: seq<Event>)
    requires |events| == 3
    ensures Run(s, events) == Step(Step(Step(s, events[0]), events[1]), events[2])
  {
    hide Step;
    assert events[..2][..1] == events[..1] && events[..1][..0] == [];
    assert Run(s, events[..1]) == Step(s, events[0]);
    assert Run(s, events[..2]) == Step(Run(s, events[..1]), events[1]);
  }

  // ---------------------------------------------------------------- coverage

  /** A job of the studio will still show everything that is active: it has yet to read the active items, or has
      read all of them. */
  ghost predicate WillCover(s: System, job: nat, id: string)
  {
    && job in s.works && s.works[job].studioId == id
    && (s.works[job].HasActive? ==>
          forall k :: k in ActiveKeys(s.state.items, id) ==> s.state.items.rows[k].id in Elements(s.works[job].active))
  }

  ghost predicate CoveredOrPending(s: System, id: string)
  {
    Covered(s.state, id) || exists job :: WillCover(s, job, id)
  }

  /** No job of the studio is stopped between its upsert and its write. */
  ghost predicate NoneStopped(s: System, events: seq<Event>, id: string)
  {
    events == [] ||
    var before, e := events[..|events| - 1], events[|events| - 1];
    NoneStopped(s, before, id) &&
    !(e.Stop? && e.job in Run(s, before).works && Run(s, before).works[e.job].studioId == id)
  }

  lemma GrownShows(before: Document, after: Document, id: nat)
    requires Grown(before, after) && HasSection(before) && id in Entries(before.layout.sections)
    ensures HasSection(after) && id in Entries(after.layout.sections)
  {
    SectionsShow(before.layout.sections, after.layout.sections, id, true);
  }

  lemma {:induction false} SectionsShow(before: seq<Section>, after: seq<Section>, id: nat, first: bool)
    requires |before| == |after| && id in Entries(before)
    requires forall i :: 0 <= i < |before| ==> before[i].itemIds <= after[i].itemIds
    ensures id in Entries(after)
  {
    assert Entries(before) == before[0].itemIds + Entries(before[1..]);
    assert Entries(after) == after[0].itemIds + Entries(after[1..]);
    if id !in before[0].itemIds {
      SectionsShow(before[1..], after[1..], id, false);
    } else {
      assert before[0].itemIds <= after[0].itemIds;
    }
  }

  lemma GrownCovers(s: State, t: State, id: string)
    requires Covered(s, id) && t.items == s.items && id in s.shops && id in t.shops && ShopGrown(s.shops[id], t.shops[id])
    ensures Covered(t, id)
  {
    hide Grown;
    GrownDocCovers(s, t, id, s.shops[id].layout, t.shops[id].layout);
    GrownDocCovers(s, t, id, s.shops[id].draftLayout, t.shops[id].draftLayout);
  }

  lemma GrownDocCovers(s: State, t: State, id: string, before: Document, after: Document)
    requires ShowsActive(s, id, before) && t.items == s.items && Grown(before, after)
    ensures ShowsActive(t, id, after)
  {
    hide Entries;
    if HasSection(before) {
      forall k | k in ActiveKeys(t.items, id)
        ensures t.items.rows[k].id in Elements(Entries(after.layout.sections))
      {
        GrownShows(before, after, t.items.rows[k].id);
      }
    }
  }

  lemma FreshWriteCovers(s: System, job: nat, id: string)
    requires Enabled(s, WriteShop(job)) && Fresh(s, job) && WillCover(s, job, id)
    ensures Covered(Step(s, WriteShop(job)).state, id)
  {
    hide Merge, Grown, WrittenDoc;
    var t := Step(s, WriteShop(job)).state;
    FreshWriteGrows(s.works[job].shop.layout, s.works[job].active);
    FreshWriteGrows(s.works[job].shop.draftLayout, s.works[job].active);
    MergedCovers(t, id, s.works[job].shop.layout, s.works[job].active);
    MergedCovers(t, id, s.works[job].shop.draftLayout, s.works[job].active);
  }

  lemma ReadingCovers(c: Items, id: string, keys: seq<Key>)
    requires ListsActive(c, id, keys)
    ensures forall k :: k in ActiveKeys(c, id) ==> c.rows[k].id in Elements(IdsOf(c, keys))
  {
    IdsOfKeys(c, keys);
  }

  lemma UpsertPends(s: System, e: Event, id: string)
    requires e.Upsert? && Enabled(s, e) && CoveredOrPending(s, id)
    ensures CoveredOrPending(Step(s, e), id)
  {
    hide Synced, FieldsOf, LastOf, ListsActive;
    var t := Step(s, e);
    if e.studioId == id {
      assert WillCover(t, e.job, id);
    } else {
      OtherStudioItems(s.state, e, id);
      if job :| WillCover(s, job, id) {
        assert WillCover(t, job, id);
      }
    }
  }

  lemma OtherStudioItems(s: State, e: Event, id: string)
    requires e.Upsert? && Storable(e.feed) && e.studioId != id
    ensures var c := Synced(s.items, e.studioId, e.feed, e.now);
      && ActiveKeys(c, id) == ActiveKeys(s.items, id)
      && (forall k :: k in ActiveKeys(c, id) ==> c.rows[k] == s.items.rows[k])
      && (Covered(s, id) ==> Covered(s.(items := c), id))
  {
    hide Synced, FieldsOf, LastOf;
    var c := Synced(s.items, e.studioId, e.feed, e.now);
    forall k: Key | k.studioId == id
      ensures k in c.rows <==> k in s.items.rows
      ensures k in s.items.rows ==> c.rows[k] == s.items.rows[k]
    {
      SyncMeaning(s.items, e.studioId, e.feed, e.now, k);
    }
  }

  lemma WritePends(s: System, e: Event, id: string)
    requires e.WriteShop? && Enabled(s, e) && Fresh(s, e.job) && CoveredOrPending(s, id)
    ensures CoveredOrPending(Step(s, e), id)
  {
    hide Merge, WrittenDoc, Grown, ListsActive;
    var t := Step(s, e);
    if WillCover(s, e.job, id) {
      FreshWriteCovers(s, e.job, id);
    } else if Covered(s.state, id) {
      if id in s.state.shops {
        StepGrows(s, e, id);
        GrownCovers(s.state, t.state, id);
      }
    } else {
      var job :| WillCover(s, job, id);
      assert WillCover(t, job, id);
    }
  }

  lemma OtherPends(s: System, e: Event, id: string)
    requires !(e.Upsert? && Enabled(s, e)) && !(e.WriteShop? && Enabled(s, e)) && CoveredOrPending(s, id)
    requires !(e.Stop? && e.job in s.works && s.works[e.job].studioId == id)
    ensures CoveredOrPending(Step(s, e), id)
  {
    hide ListsActive;
    var t := Step(s, e);
    assert t.state == s.state;
    if job :| WillCover(s, job, id) {
      if e.ReadActive? && Enabled(s, e) && e.job == job {
        ReadingCovers(s.state.items, id, e.keys);
      }
      if e.ReadShop? && Enabled(s, e) && e.job == job && id !in s.state.shops {
        assert Covered(t.state, id);
      } else {
        assert WillCover(t, job, id);
      }
    }
  }

  lemma {:induction false} FreshRunCovers(s: System, events: seq<Event>, id: string)
    requires CoveredOrPending(s, id) && FreshRun(s, events) && NoneStopped(s, events, id)
    ensures CoveredOrPending(Run(s, events), id)
  {
    hide Step, Enabled, Fresh, CoveredOrPending;
    if events != [] {
      var e := events[|events| - 1];
      FreshRunCovers(s, events[..|events| - 1], id);
      var t := Run(s, events[..|events| - 1]);
      if e.Upsert? && Enabled(t, e) {
        UpsertPends(t, e, id);
      } else if e.WriteShop? && Enabled(t, e) {
        WritePends(t, e, id);
      } else {
        OtherPends(t, e, id);
      }
    }
  }

  /** Where no write falls between another job's read and write and no job is stopped, a shop shows all its active
      items whenever no job of its studio is at work, if it did so at first. */
  lemma QuietShopsAreCovered(s: System, events: seq<Event>, id: string)
    requires Covered(s.state, id) && FreshRun(s, events) && NoneStopped(s, events, id)
    requires forall job :: job in Run(s, events).works ==> Run(s, events).works[job].studioId != id
    ensures Covered(Run(s, events).state, id)
  {
    hide Run;
    FreshRunCovers(s, events, id);
  }

  /** A single write leaves every active item on a page with a section exactly if each is on the page the job read
      or in the list it read; if it writes nothing, exactly if each is on the page already. */
  lemma WriteShowsIff(s: State, id: string, seen: Document, stored: Document, active: seq<nat>)
    requires HasSection(stored)
    ensures ShowsActive(s, id, WrittenDoc(stored, seen, active)) <==>
      forall k :: k in ActiveKeys(s.items, id) ==>
        var x := s.items.rows[k].id;
        if Merge(seen, active).Some? then x in Entries(seen.layout.sections) || x in active
        else x in Entries(stored.layout.sections)
  {
    hide Entries, Elements;
    if Merge(seen, active).Some? {
      MergedShows(seen, active);
      assert WrittenDoc(stored, seen, active) == Merged(seen, active);
      hide Merge, Merged;
      forall k | k in ActiveKeys(s.items, id)
        ensures s.items.rows[k].id in Elements(Entries(WrittenDoc(stored, seen, active).layout.sections)) <==>
          s.items.rows[k].id in Entries(seen.layout.sections) || s.items.rows[k].id in active
      {
        InElements(s.items.rows[k].id, Entries(seen.layout.sections));
        InElements(s.items.rows[k].id, active);
      }
    } else {
      forall k | k in ActiveKeys(s.items, id)
        ensures s.items.rows[k].id in Elements(Entries(stored.layout.sections)) <==> s.items.rows[k].id in Entries(stored.layout.sections)
      {
        InElements(s.items.rows[k].id, Entries(stored.layout.sections));
      }
    }
  }

  lemma InElements(x: nat, ids: seq<nat>)
    ensures x in Elements(ids) <==> x in ids
  {}

  // ---------------------------------------------------------------- one job after another

  /** The four steps of an undisturbed job. */
  function Undisturbed(job: nat, j: Job): seq<Event>
  {
    [Upsert(job, j.studioId, j.feed, j.now), ReadShop(job), ReadActive(job, j.active), WriteShop(job)]
  }

  /** Undisturbed, they do what the job is meant to do. */
  lemma UndisturbedIsSync(s: System, job: nat, j: Job)
    requires job !in s.works && Runs(s.state, j)
    ensures Run(s, Undisturbed(job, j)) == System(AfterSync(s.state, j), s.works)
  {
    hide Synced, Merge, FieldsOf;
    var e := Undisturbed(job, j);
    RunThree(s, e[..3]);
    var a := Step(s, e[0]);
    var b := Step(a, e[1]);
    var c := Step(b, e[2]);
    assert Run(s, e) == Step(c, e[3]);
    if j.studioId in s.state.shops {
      var ids := IdsOf(a.state.items, j.active);
      assert c.works == s.works[job := HasActive(j.studioId, s.state.shops[j.studioId], ids)];
      assert Written(s.state.shops[j.studioId], s.state.shops[j.studioId], ids) == SyncShop(s.state.shops[j.studioId], ids);
      assert Step(c, e[3]).works == s.works;
    } else {
      assert b.works == s.works;
    }
  }

  // ---------------------------------------------------------------- the lost update

  /** Two jobs of a studio: the second does all its steps while the first has read but not written. */
  function Overlapping(a: nat, b: nat, id: string, one: RemoteItem, two: RemoteItem, k: Key, l: Key, now: nat): seq<Event>
  {
    [Upsert(a, id, [one], now), ReadShop(a), ReadActive(a, [k])]
    + [Upsert(b, id, [one, two], now), ReadShop(b), ReadActive(b, [k, l])]
    + [WriteShop(b), WriteShop(a)]
  }

  lemma BothActive(c: Items, id: string, one: RemoteItem, two: RemoteItem, now: nat)
    requires IsNew(c, id, one) && IsNew(c, id, two) && one.externalId != two.externalId
    ensures Storable([one, two]) && Storable([one])
    ensures var d := Synced(Synced(c, id, [one], now), id, [one, two], now);
      var k, l := Key(id, one.externalId), Key(id, two.externalId);
      ActiveKeys(d, id) == {k, l} && ListsActive(d, id, [k, l]) && d.rows[l].id > c.nextId
  {
    hide FieldsOf, LastOf, Synced;
    var d := Synced(c, id, [one], now);
    var e := Synced(d, id, [one, two], now);
    var k, l := Key(id, one.externalId), Key(id, two.externalId);
    assert ExternalIds([one]) == {one.externalId} && ExternalIds([one, two]) == {one.externalId, two.externalId};
    NextAfterOne(c, id, one, now);
    FeedDecidesActive(d, id, [one, two], now);
    assert ActiveKeys(e, id) == {k, l};
    SyncMeaning(c, id, [one], now, k);
    SyncMeaning(c, id, [one], now, l);
    SyncMeaning(d, id, [one, two], now, k);
    SyncMeaning(d, id, [one, two], now, l);
    assert e.rows[k].createdAt == now == e.rows[l].createdAt;
  }

  lemma NextAfterOne(c: Items, id: string, item: RemoteItem, now: nat)
    requires IsNew(c, id, item)
    ensures Storable([item]) && Synced(c, id, [item], now).nextId == c.nextId + 1
  {
    hide FieldsOf;
    assert [item][..0] == [] && [item][0] == item;
    assert UpsertAll(c, id, [], now) == c;
  }

  /** A lost update: two overlapping jobs of one studio both end well, yet an active item that the second had put on
      the page is gone from it, and no job is left to bring it back. */
  lemma OverlappingJobsLoseItem(s: System, a: nat, b: nat, id: string, one: RemoteItem, two: RemoteItem, now: nat)
    requires a != b && a !in s.works && b !in s.works && id in s.state.shops
    requires IsNew(s.state.items, id, one) && IsNew(s.state.items, id, two) && one.externalId != two.externalId
    requires HasSection(s.state.shops[id].layout) && KnownEntries(s.state.shops[id].layout, s.state.items.nextId)
    ensures var k, l := Key(id, one.externalId), Key(id, two.externalId);
      var events := Overlapping(a, b, id, one, two, k, l, now);
      var mid, end := Run(s, events[..7]).state, Run(s, events).state;
      && Run(s, events).works == s.works && id in mid.shops && id in end.shops
      && l in ActiveKeys(mid.items, id) && l in ActiveKeys(end.items, id) && end.items == mid.items
      && HasSection(mid.shops[id].layout) && end.items.rows[l].id in Entries(mid.shops[id].layout.layout.sections)
      && HasSection(end.shops[id].layout) && end.items.rows[l].id !in Entries(end.shops[id].layout.layout.sections)
      && !Covered(end, id) && !ShopGrown(mid.shops[id], end.shops[id])
  {
    hide Run, Step, FieldsOf, LastOf, Synced, ListsActive, Merge, WrittenDoc, Grown, Enabled, IsNew;
    var k, l := Key(id, one.externalId), Key(id, two.externalId);
    var events := Overlapping(a, b, id, one, two, k, l, now);
    BothActive(s.state.items, id, one, two, now);
    OnlyNewActive(s.state.items, id, one, now);
    var c := Prepared(s, a, id, [one], now, [k]);
    var d := Prepared(c, b, id, [one, two], now, [k, l]);
    RunThree(s, events[..3]);
    RunThree(c, events[3..6]);
    RunConcat(s, events[..3], events[3..6]);
    assert events[..6] == events[..3] + events[3..6];
    RunNext(s, events[..6], WriteShop(b));
    assert events[..7] == events[..6] + [WriteShop(b)];
    RunNext(s, events[..7], WriteShop(a));
    assert events == events[..7] + [WriteShop(a)];
    var doc := s.state.shops[id].layout;
    var ids := IdsOf(d.state.items, [k, l]);
    assert ids == [d.state.items.rows[k].id, d.state.items.rows[l].id];
    var mid := WritesBack(d, b);
    var end := WritesBack(mid, a);
    assert mid.state.shops[id].layout == WrittenDoc(doc, doc, ids);
    assert c.works[a].active == [s.state.items.nextId];
    assert end.state.shops[id].layout == WrittenDoc(mid.state.shops[id].layout, doc, [s.state.items.nextId]);
    assert ids[1] in ids;
    ShowsBoth(doc, ids);
    OverwritesFirst(doc, mid.state.shops[id].layout, s.state.items.nextId, d.state.items.rows[l].id);
    assert l in ActiveKeys(end.state.items, id);
    assert end.works == s.works;
    LostIsNotGrown(mid.state.shops[id].layout, end.state.shops[id].layout, d.state.items.rows[l].id);
  }

  // A job's upsert and reads, one after another.
  lemma Prepared(s: System, job: nat, id: string, feed: seq<RemoteItem>, now: nat, keys: seq<Key>) returns (t: System)
    requires job !in s.works && id in s.state.shops && Storable(feed)
    requires ListsActive(Synced(s.state.items, id, feed, now), id, keys)
    ensures t == Step(Step(Step(s, Upsert(job, id, feed, now)), ReadShop(job)), ReadActive(job, keys))
    ensures t.state == s.state.(items := Synced(s.state.items, id, feed, now))
    ensures forall k :: k in keys ==> k in t.state.items.rows
    ensures t.works == s.works[job := HasActive(id, s.state.shops[id], IdsOf(t.state.items, keys))]
  {
    hide Synced, FieldsOf;
    t := Step(Step(Step(s, Upsert(job, id, feed, now)), ReadShop(job)), ReadActive(job, keys));
  }

  lemma WritesBack(s: System, job: nat) returns (t: System)
    requires job in s.works && s.works[job].HasActive? && s.works[job].studioId in s.state.shops
    ensures t == Step(s, WriteShop(job))
    ensures var work := s.works[job];
      t == System(s.state.(shops := s.state.shops[work.studioId := Written(s.state.shops[work.studioId], work.shop, work.active)]),
                  s.works - {job})
  {
    hide Synced, ListsActive, Written;
    t := Step(s, WriteShop(job));
  }

  lemma ShowsBoth(doc: Document, ids: seq<nat>)
    requires HasSection(doc)
    ensures var after := WrittenDoc(doc, doc, ids);
      HasSection(after) && forall x :: x in ids ==> x in Entries(after.layout.sections)
  {
    MergedShows(doc, ids);
    hide Merge;
    forall x | x in ids
      ensures x in Entries(WrittenDoc(doc, doc, ids).layout.sections)
    {
      assert x in Elements(ids);
      assert WrittenDoc(doc, doc, ids) == Merged(doc, ids);
      InElements(x, Entries(Merged(doc, ids).layout.sections));
    }
  }

  lemma OverwritesFirst(doc: Document, stored: Document, n: nat, x: nat)
    requires HasSection(doc) && KnownEntries(doc, n) && x > n
    ensures var after := WrittenDoc(stored, doc, [n]); HasSection(after) && x !in Entries(after.layout.sections)
  {
    MergeIsNeeded(doc, [n]);
    assert n in [n];
    MergedShows(doc, [n]);
    assert x !in Entries(doc.layout.sections) && x !in [n];
    InElements(x, Entries(WrittenDoc(stored, doc, [n]).layout.sections));
  }

  lemma LostIsNotGrown(before: Document, after: Document, x: nat)
    requires HasSection(before) && x in Entries(before.layout.sections)
    requires HasSection(after) && x !in Entries(after.layout.sections)
    ensures !Grown(before, after)
  {
    if Grown(before, after) {
      GrownShows(before, after, x);
    }
  }

  lemma {:induction false} RunConcat(s: System, a: seq<Event>, b: seq<Event>)
    ensures Run(s, a + b) == Run(Run(s, a), b)
  {
    hide Step;
    if b == [] {
      assert a + b == a;
    } else {
      assert (a + b)[..|a + b| - 1] == a + b[..|b| - 1];
      RunConcat(s, a, b[..|b| - 1]);
    }
  }

  lemma RunNext(s: System, events: seq<Event>, e: Event)
    ensures Run(s, events + [e]) == Step(Run(s, events), e)
  {
    hide Step;
    assert (events + [e])[..|events + [e]| - 1] == events;
  }
}
