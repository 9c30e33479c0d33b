/** Catalogue sync (packages/shared/src/catalogue/upsert.ts, apps/worker/src/jobs/catalogue-sync.ts): a
    studio's feed is written over its items, what the feed no longer lists is deactivated, and items that no
    section of the shop shows are added to its first section. */
module Catalogue {
  import opened Wrappers
  import Stellar
  import Money

  /** A value in an item's free-form metadata. */
  datatype Json = Text(text: string) | Null | Other(encoded: string)

  type Metadata = map<string, Json>

  datatype RemoteItem = RemoteItem(
    externalId: string, name: string, description: Option<string>, imageUrl: Option<string>,
    price: string, currency: Stellar.Currency, stock: Option<nat>, metadata: Option<Metadata>)

  /** The columns a feed item determines. */
  datatype Fields = Fields(
    name: string, description: Option<string>, imageUrl: Option<string>, priceAmount: real,
    priceCurrency: Stellar.Currency, stock: Option<nat>, category: Option<string>, rarity: Option<string>, metadata: Metadata)

  datatype Row = Row(id: nat, fields: Fields, isActive: bool, isListed: bool, syncedAt: Option<nat>, createdAt: nat)

  /** The unique key of an item. */
  datatype Key = Key(studioId: string, externalId: string)

  datatype Items = Items(rows: map<Key, Row>, nextId: nat)

  // ---------------------------------------------------------------- the upsert

  /** A text column taken from the metadata. The store refuses a value that is neither text nor null. */
  function TextColumn(metadata: Option<Metadata>, name: string): Option<Option<string>>
  {
    if metadata.None? || name !in metadata.value || metadata.value[name].Null? then Some(None)
    else if metadata.value[name].Text? then Some(Some(metadata.value[name].text))
    else None
  }

  /** None where the write throws. */
  function FieldsOf(i: RemoteItem): Option<Fields>
  {
    var price := Money.FromStellarAmount(i.price);
    var category, rarity := TextColumn(i.metadata, "category"), TextColumn(i.metadata, "rarity");
    if price.None? || category.None? || rarity.None? then None
    else
      Some(Fields(i.name, i.description, i.imageUrl, price.value, i.currency, i.stock, category.value, rarity.value,
                  if i.metadata.Some? then i.metadata.value else map[]))
  }

  /** The metadata has a value under this name that is neither text nor null. */
  predicate Unfit(metadata: Option<Metadata>, name: string)
  {
    metadata.Some? && name in metadata.value && metadata.value[name].Other?
  }

  /** The text under this name, if there is one. */
  predicate IsTextOf(metadata: Option<Metadata>, name: string, column: Option<string>)
  {
    if metadata.Some? && name in metadata.value && metadata.value[name].Text?
    then column == Some(metadata.value[name].text) else column.None?
  }

  /** Column by column what an item stores, and which items cannot be stored. */
  lemma FieldsTerms(i: RemoteItem)
    ensures FieldsOf(i).None? <==>
      Money.FromStellarAmount(i.price).None? || Unfit(i.metadata, "category") || Unfit(i.metadata, "rarity")
    ensures FieldsOf(i).Some? ==>
      var f := FieldsOf(i).value;
      && f.name == i.name && f.description == i.description && f.imageUrl == i.imageUrl
      && Money.FromStellarAmount(i.price) == Some(f.priceAmount) && f.priceCurrency == i.currency && f.stock == i.stock
      && IsTextOf(i.metadata, "category", f.category) && IsTextOf(i.metadata, "rarity", f.rarity)
      && (i.metadata.Some? ==> f.metadata == i.metadata.value) && (i.metadata.None? ==> f.metadata == map[])
  {
    hide Money.FromStellarAmount;
  }

  predicate Storable(feed: seq<RemoteItem>) { forall i :: i in feed ==> FieldsOf(i).Some? }

  /** A price that the feed's schema accepts is stored as a whole number of stroops. */
  lemma PriceIsStored(i: RemoteItem) returns (stroops: nat)
    requires Money.MatchesPricePattern(i.price)
    requires TextColumn(i.metadata, "category").Some? && TextColumn(i.metadata, "rarity").Some?
    ensures FieldsOf(i).Some? && FieldsOf(i).value.priceAmount == Money.Amount(stroops)
  {
    stroops := Money.PriceIsStroops(i.price);
  }

  function UpsertOne(c: Items, studioId: string, externalId: string, f: Fields, now: nat): Items
  {
    var k := Key(studioId, externalId);
    if k in c.rows then
      c.(rows := c.rows[k := c.rows[k].(fields := f, isActive := true, syncedAt := Some(now))])
    else
      Items(c.rows[k := Row(c.nextId, f, true, true, Some(now), now)], c.nextId + 1)
  }

  function UpsertAll(c: Items, studioId: string, feed: seq<RemoteItem>, now: nat): Items
    requires Storable(feed)
  {
    if feed == [] then c
    else
      var i := feed[|feed| - 1];
      UpsertOne(UpsertAll(c, studioId, feed[..|feed| - 1], now), studioId, i.externalId, FieldsOf(i).value, now)
  }

  function ExternalIds(feed: seq<RemoteItem>): set<string> { set i | i in feed :: i.externalId }

  /** The active items of a studio that are not in its feed. */
  function Stale(c: Items, studioId: string, ids: set<string>): set<Key>
  {
    set k | k in c.rows && k.studioId == studioId && k.externalId !in ids && c.rows[k].isActive
  }

  function Deactivate(c: Items, keys: set<Key>): Items
  {
    c.(rows := map k | k in c.rows :: if k in keys then c.rows[k].(isActive := false) else c.rows[k])
  }

  function Synced(c: Items, studioId: string, feed: seq<RemoteItem>, now: nat): Items
    requires Storable(feed)
  {
    var d := UpsertAll(c, studioId, feed, now);
    Deactivate(d, Stale(d, studioId, ExternalIds(feed)))
  }

  // ---------------------------------------------------------------- what a sync means

  /** The last item of the feed with an external id. */
  function LastOf(feed: seq<RemoteItem>, externalId: string): (i: RemoteItem)
    requires externalId in ExternalIds(feed)
    ensures i in feed && i.externalId == externalId
  {
    var last := feed[|feed| - 1];
    if last.externalId == externalId then last
    else
      assert forall j :: j in feed ==> j in feed[..|feed| - 1] || j == last;
      LastOf(feed[..|feed| - 1], externalId)
  }

  /** No later item of the feed has the id. */
  lemma {:induction false} LastTerms(feed: seq<RemoteItem>, externalId: string)
    requires externalId in ExternalIds(feed)
    ensures exists n ::
      && 0 <= n < |feed| && feed[n] == LastOf(feed, externalId) && feed[n].externalId == externalId
      && forall m :: n < m < |feed| ==> feed[m].externalId != externalId
  {
    var before, last := feed[..|feed| - 1], feed[|feed| - 1];
    if last.externalId == externalId {
      assert feed[|before|] == LastOf(feed, externalId);
    } else {
      assert feed == before + [last];
      LastTerms(before, externalId);
      var n :| && 0 <= n < |before| && before[n] == LastOf(before, externalId) && before[n].externalId == externalId
               && forall m :: n < m < |before| ==> before[m].externalId != externalId;
      assert feed[n] == LastOf(feed, externalId);
    }
  }

  /** The row takes the fields given last and keeps its identity and its listing switch. */
  predicate IsUpserted(c: Items, d: Items, k: Key, feed: seq<RemoteItem>, now: nat)
    requires k in d.rows && k.externalId in ExternalIds(feed)
  {
    var row := d.rows[k];
    && FieldsOf(LastOf(feed, k.externalId)) == Some(row.fields) && row.isActive && row.syncedAt == Some(now)
    && if k in c.rows
       then row.id == c.rows[k].id && row.isListed == c.rows[k].isListed && row.createdAt == c.rows[k].createdAt
       else row.isListed && row.createdAt == now && row.id >= c.nextId
  }

  predicate InFeed(k: Key, studioId: string, feed: seq<RemoteItem>)
  {
    k.studioId == studioId && k.externalId in ExternalIds(feed)
  }

  lemma {:induction false} UpsertedRows(c: Items, studioId: string, feed: seq<RemoteItem>, now: nat, k: Key)
    requires Storable(feed)
    ensures var d := UpsertAll(c, studioId, feed, now);
      && d.nextId >= c.nextId
      && (k in d.rows <==> k in c.rows || InFeed(k, studioId, feed))
      && (k in d.rows ==> if InFeed(k, studioId, feed) then IsUpserted(c, d, k, feed, now) else d.rows[k] == c.rows[k])
  {
    hide FieldsOf;
    if feed != [] {
      var before, last := feed[..|feed| - 1], feed[|feed| - 1];
      assert feed == before + [last];
      assert ExternalIds(feed) == ExternalIds(before) + {last.externalId};
      UpsertedRows(c, studioId, before, now, k);
    }
  }

  /** Everything a sync does to a row: rows of other studios stay, the studio's rows are exactly the old ones and
      the feed's, and those of the feed are active with the feed's last word while all others are not. */
  lemma SyncMeaning(c: Items, studioId: string, feed: seq<RemoteItem>, now: nat, k: Key)
    requires Storable(feed)
    ensures var d := Synced(c, studioId, feed, now);
      && (k in d.rows <==> k in c.rows || InFeed(k, studioId, feed))
      && (k in d.rows ==>
            if InFeed(k, studioId, feed) then IsUpserted(c, d, k, feed, now)
            else d.rows[k] == if k.studioId == studioId then c.rows[k].(isActive := false) else c.rows[k])
  {
    hide FieldsOf, LastOf;
    UpsertedRows(c, studioId, feed, now, k);
  }

  function ActiveKeys(c: Items, studioId: string): set<Key>
  {
    set k | k in c.rows && k.studioId == studioId && c.rows[k].isActive
  }

  lemma FeedDecidesActive(c: Items, studioId: string, feed: seq<RemoteItem>, now: nat)
    requires Storable(feed)
    ensures ActiveKeys(Synced(c, studioId, feed, now), studioId) == set id | id in ExternalIds(feed) :: Key(studioId, id)
  {
    hide FieldsOf, LastOf;
    var d := Synced(c, studioId, feed, now);
    forall k ensures k in ActiveKeys(d, studioId) <==> InFeed(k, studioId, feed) {
      SyncMeaning(c, studioId, feed, now, k);
    }
    forall k | InFeed(k, studioId, feed) ensures k == Key(studioId, k.externalId) {}
  }

  /** The upserts decide nothing about what is stale. */
  lemma StaleBeforeUpsert(c: Items, studioId: string, feed: seq<RemoteItem>, now: nat)
    requires Storable(feed)
    ensures Stale(UpsertAll(c, studioId, feed, now), studioId, ExternalIds(feed)) == Stale(c, studioId, ExternalIds(feed))
  {
    hide FieldsOf, LastOf;
    var d := UpsertAll(c, studioId, feed, now);
    forall k ensures k in Stale(d, studioId, ExternalIds(feed)) <==> k in Stale(c, studioId, ExternalIds(feed)) {
      UpsertedRows(c, studioId, feed, now, k);
    }
  }

  /** A second sync with the same feed finds nothing stale and renews only the time of the sync. */
  lemma SecondSync(c: Items, studioId: string, feed: seq<RemoteItem>, now: nat, later: nat)
    requires Storable(feed)
    ensures var d := Synced(c, studioId, feed, now);
      && Stale(d, studioId, ExternalIds(feed)) == {}
      && Synced(d, studioId, feed, later).rows == map k | k in d.rows ::
           if InFeed(k, studioId, feed) then d.rows[k].(syncedAt := Some(later)) else d.rows[k]
  {
    hide FieldsOf, LastOf;
    var d := Synced(c, studioId, feed, now);
    var e := Synced(d, studioId, feed, later);
    forall k
      ensures k in e.rows <==> k in d.rows
      ensures k in d.rows ==>
        e.rows[k] == if InFeed(k, studioId, feed) then d.rows[k].(syncedAt := Some(later)) else d.rows[k]
      ensures k !in Stale(d, studioId, ExternalIds(feed))
    {
      SyncMeaning(c, studioId, feed, now, k);
      SyncMeaning(d, studioId, feed, later, k);
    }
  }

  // ---------------------------------------------------------------- ids

  ghost predicate IdsInv(c: Items)
  {
    && (forall k :: k in c.rows ==> c.rows[k].id < c.nextId)
    && (forall j, k :: j in c.rows && k in c.rows && c.rows[j].id == c.rows[k].id ==> j == k)
  }

  lemma {:induction false} SyncKeepsIds(c: Items, studioId: string, feed: seq<RemoteItem>, now: nat)
    requires Storable(feed) && IdsInv(c)
    ensures IdsInv(Synced(c, studioId, feed, now))
  {
    hide FieldsOf;
    UpsertKeepsIds(c, studioId, feed, now);
  }

  lemma {:induction false} UpsertKeepsIds(c: Items, studioId: string, feed: seq<RemoteItem>, now: nat)
    requires Storable(feed) && IdsInv(c)
    ensures IdsInv(UpsertAll(c, studioId, feed, now))
  {
    hide FieldsOf;
    if feed != [] {
      UpsertKeepsIds(c, studioId, feed[..|feed| - 1], now);
    }
  }

  /** Some list of the ids of a studio's active items, oldest first. Items of one sync are equally old. */
  ghost predicate ListsActive(c: Items, studioId: string, keys: seq<Key>)
  {
    && (forall k :: k in keys <==> k in ActiveKeys(c, studioId))
    && (forall i, j :: 0 <= i < j < |keys| ==> keys[i] != keys[j])
    && (forall i, j :: 0 <= i < j < |keys| ==> Older(c, keys[i], keys[j]))
  }

  predicate Older(c: Items, j: Key, k: Key) { j in c.rows && k in c.rows && c.rows[j].createdAt <= c.rows[k].createdAt }

  lemma {:induction false} OldestExists(c: Items, keys: set<Key>)
    requires keys != {} && keys <= c.rows.Keys
    ensures exists j :: j in keys && forall k :: k in keys ==> Older(c, j, k)
    decreases |keys|
  {
    var j :| j in keys;
    var others := keys - {j};
    if others == {} {
      assert keys == {j};
    } else {
      OldestExists(c, others);
      var i :| i in others && forall k :: k in others ==> Older(c, i, k);
      var oldest := if c.rows[j].createdAt <= c.rows[i].createdAt then j else i;
      forall k | k in keys ensures Older(c, oldest, k) {
        assert k == j || k in others;
        assert Older(c, i, i);
      }
    }
  }

  function IdsOf(c: Items, keys: seq<Key>): (ids: seq<nat>)
    requires forall k :: k in keys ==> k in c.rows
  {
    seq(|keys|, i requires 0 <= i < |keys| => c.rows[keys[i]].id)
  }

  // ---------------------------------------------------------------- the layout

  datatype Section = Section(id: string, title: string, itemIds: seq<nat>)

  datatype Mode = Grid | List

  datatype Layout = Layout(mode: Mode, sections: seq<Section>)

  /** A JSON column: absent, some other document, or one that the layout schema accepts. */
  datatype Document = Absent | Unreadable(json: string) | Readable(layout: Layout)

  datatype Shop = Shop(layout: Document, draftLayout: Document)

  function Entries(sections: seq<Section>): seq<nat>
  {
    if sections == [] then [] else sections[0].itemIds + Entries(sections[1..])
  }

  function Missing(shown: set<nat>, ids: seq<nat>): seq<nat>
  {
    if ids == [] then []
    else Missing(shown, ids[..|ids| - 1]) + if ids[|ids| - 1] in shown then [] else [ids[|ids| - 1]]
  }

  function Elements(ids: seq<nat>): set<nat> { set id | id in ids }

  function Append(sections: seq<Section>, ids: seq<nat>): seq<Section>
    requires sections != []
  {
    [sections[0].(itemIds := sections[0].itemIds + ids)] + sections[1..]
  }

  /** None where the document stays as it is. */
  function Merge(doc: Document, active: seq<nat>): Option<Layout>
  {
    if !doc.Readable? || doc.layout.sections == [] then None
    else
      var missing := Missing(Elements(Entries(doc.layout.sections)), active);
      if missing == [] then None else Some(doc.layout.(sections := Append(doc.layout.sections, missing)))
  }

  function Merged(doc: Document, active: seq<nat>): Document
  {
    var m := Merge(doc, active);
    if m.Some? then Readable(m.value) else doc
  }

  predicate HasSection(doc: Document) { doc.Readable? && doc.layout.sections != [] }

  lemma {:induction false} MissingIs(shown: set<nat>, ids: seq<nat>)
    ensures Elements(Missing(shown, ids)) == Elements(ids) - shown
    ensures Distinct(ids) ==> Distinct(Missing(shown, ids))
  {
    if ids != [] {
      var before, id := ids[..|ids| - 1], ids[|ids| - 1];
      assert ids == before + [id];
      MissingIs(shown, before);
      var last := if id in shown then [] else [id];
      ElementsOfConcat(before, [id]);
      ElementsOfConcat(Missing(shown, before), last);
      assert id in Missing(shown, before) ==> id in Elements(before);
    }
  }

  lemma ElementsOfConcat(a: seq<nat>, b: seq<nat>)
    ensures Elements(a + b) == Elements(a) + Elements(b)
  {
    assert forall id :: id in Elements(a) + Elements(b) <==> id in Elements(a + b);
  }

  ghost predicate Distinct(s: seq<nat>) { forall i, j :: 0 <= i < j < |s| ==> s[i] != s[j] }

  /** A document with a section then shows what it showed and every active item, and nothing else. */
  lemma MergedShows(doc: Document, active: seq<nat>)
    requires HasSection(doc)
    ensures var after := Merged(doc, active);
      && HasSection(after)
      && Elements(Entries(after.layout.sections)) == Elements(Entries(doc.layout.sections)) + Elements(active)
  {
    var sections := doc.layout.sections;
    var shown := Elements(Entries(sections));
    var missing := Missing(shown, active);
    MissingIs(shown, active);
    EntriesOfAppend(sections, missing);
    var first, rest := sections[0].itemIds, Entries(sections[1..]);
    ElementsOfConcat(first, rest);
    ElementsOfConcat(first, missing);
    ElementsOfConcat(first + missing, rest);
    assert missing == [] ==> Elements(missing) == {};
  }

  lemma {:induction false} EntriesHas(sections: seq<Section>, id: nat)
    ensures id in Entries(sections) <==> exists k :: 0 <= k < |sections| && id in sections[k].itemIds
  {
    if sections != [] {
      EntriesHas(sections[1..], id);
      if k :| 0 <= k < |sections| && id in sections[k].itemIds {
        assert k > 0 ==> sections[1..][k - 1] == sections[k];
      }
      if k :| 0 <= k < |sections[1..]| && id in sections[1..][k].itemIds {
        assert sections[k + 1] == sections[1..][k];
      }
    }
  }

  lemma {:induction false} MissingInOrder(shown: set<nat>, ids: seq<nat>, i: nat, j: nat)
    requires i < j < |Missing(shown, ids)|
    ensures exists p, q :: 0 <= p < q < |ids| && ids[p] == Missing(shown, ids)[i] && ids[q] == Missing(shown, ids)[j]
  {
    var before, id := ids[..|ids| - 1], ids[|ids| - 1];
    var m := Missing(shown, before);
    if j < |m| {
      MissingInOrder(shown, before, i, j);
      var p, q :| 0 <= p < q < |before| && before[p] == m[i] && before[q] == m[j];
      assert ids[p] == m[i] && ids[q] == m[j];
    } else {
      MissingIs(shown, before);
      assert m[i] in Elements(m) && m[i] in Elements(before);
      var p :| 0 <= p < |before| && before[p] == m[i];
      assert ids[p] == m[i] && ids[|before|] == Missing(shown, ids)[j];
    }
  }

  /** What a merge adds, at the end of the first section: exactly the active items that no section shows, in the order
      in which they are listed. */
  lemma MergeAdds(doc: Document, active: seq<nat>) returns (added: seq<nat>)
    requires HasSection(doc)
    ensures HasSection(Merged(doc, active))
    ensures Merged(doc, active).layout.sections[0].itemIds == doc.layout.sections[0].itemIds + added
    ensures forall id :: id in added <==>
      id in active && forall k :: 0 <= k < |doc.layout.sections| ==> id !in doc.layout.sections[k].itemIds
    ensures forall i, j :: 0 <= i < j < |added| ==> exists p, q :: 0 <= p < q < |active| && active[p] == added[i] && active[q] == added[j]
  {
    var sections := doc.layout.sections;
    var shown := Elements(Entries(sections));
    added := Missing(shown, active);
    MissingIs(shown, active);
    forall id
      ensures id in added <==> id in active && forall k :: 0 <= k < |sections| ==> id !in sections[k].itemIds
    {
      EntriesHas(sections, id);
      assert id in added <==> id in Elements(added);
      assert id in active <==> id in Elements(active);
    }
    forall i, j | 0 <= i < j < |added|
      ensures exists p, q :: 0 <= p < q < |active| && active[p] == added[i] && active[q] == added[j]
    {
      MissingInOrder(shown, active, i, j);
    }
  }

  lemma EntriesOfAppend(sections: seq<Section>, ids: seq<nat>)
    requires sections != []
    ensures Entries(Append(sections, ids)) == sections[0].itemIds + ids + Entries(sections[1..])
  {
    assert Append(sections, ids)[1..] == sections[1..];
  }

  /** What a merge keeps: the mode, every section's id and title, and its entries in order at the front. */
  predicate Grown(before: Document, after: Document)
  {
    if !before.Readable? then after == before
    else
      && after.Readable?
      && after.layout.mode == before.layout.mode
      && |after.layout.sections| == |before.layout.sections|
      && forall i :: 0 <= i < |before.layout.sections| ==>
           SectionGrown(before.layout.sections[i], after.layout.sections[i], i == 0)
  }

  /** Only the first section takes new entries. */
  predicate SectionGrown(before: Section, after: Section, first: bool)
  {
    && after.id == before.id && after.title == before.title && before.itemIds <= after.itemIds
    && (!first ==> after == before)
  }

  lemma MergeOnlyAppends(doc: Document, active: seq<nat>)
    ensures Grown(doc, Merged(doc, active))
  {
    if HasSection(doc) {
      var sections := doc.layout.sections;
      var missing := Missing(Elements(Entries(sections)), active);
      assert forall i :: 1 <= i < |sections| ==> Append(sections, missing)[i] == sections[i];
    }
  }

  /** No item is shown twice unless one was before. */
  lemma MergeKeepsDistinct(doc: Document, active: seq<nat>)
    requires HasSection(doc) && Distinct(Entries(doc.layout.sections)) && Distinct(active)
    ensures Distinct(Entries(Merged(doc, active).layout.sections))
  {
    var sections := doc.layout.sections;
    var shown := Elements(Entries(sections));
    var missing := Missing(shown, active);
    MissingIs(shown, active);
    EntriesOfAppend(sections, missing);
    assert forall id :: id in missing ==> id in Elements(missing);
    InsertKeepsDistinct(sections[0].itemIds, missing, Entries(sections[1..]));
  }

  lemma InsertKeepsDistinct(a: seq<nat>, b: seq<nat>, c: seq<nat>)
    requires Distinct(a + c) && Distinct(b) && forall x :: x in b ==> x !in a + c
    ensures Distinct(a + b + c)
  {
    var s, t := a + b + c, a + c;
    forall i, j | 0 <= i < j < |s| ensures s[i] != s[j] {
      var outside := (i < |a| || i >= |a| + |b|) && (j < |a| || j >= |a| + |b|);
      if outside {
        var i', j' := if i < |a| then i else i - |b|, if j < |a| then j else j - |b|;
        assert s[i] == t[i'] && s[j] == t[j'];
      } else if |a| <= i < |a| + |b| && |a| <= j < |a| + |b| {
        assert s[i] == b[i - |a|] && s[j] == b[j - |a|];
      } else if |a| <= i < |a| + |b| {
        assert s[i] == b[i - |a|] && s[j] == t[j - |b|];
        assert s[i] in b;
      } else {
        assert s[j] == b[j - |a|] && s[i] == t[i];
        assert s[j] in b;
      }
    }
  }

  /** A merge writes nothing exactly when there is nothing to write to or nothing to add. */
  lemma MergeIsNeeded(doc: Document, active: seq<nat>)
    ensures Merge(doc, active).Some? <==>
      HasSection(doc) && exists id :: id in active && id !in Entries(doc.layout.sections)
  {
    if HasSection(doc) {
      var shown := Elements(Entries(doc.layout.sections));
      var missing := Missing(shown, active);
      MissingIs(shown, active);
      if missing != [] {
        assert missing[0] in Elements(missing);
      } else {
        forall id | id in active ensures id in Entries(doc.layout.sections) {
          assert id in Elements(active) && id !in Elements(missing);
        }
      }
    }
  }

  lemma SecondMerge(doc: Document, active: seq<nat>, again: seq<nat>)
    requires Elements(again) <= Elements(active)
    ensures Merge(Merged(doc, active), again) == None
  {
    var after := Merged(doc, active);
    MergeIsNeeded(after, again);
    if HasSection(doc) {
      MergedShows(doc, active);
      forall id | id in again ensures id in Entries(after.layout.sections) {
        assert id in Elements(again);
        assert id in Elements(Entries(after.layout.sections));
      }
    }
  }

  // ---------------------------------------------------------------- the job

  datatype Studio = Studio(apiPull: bool, apiBaseUrl: Option<string>)

  datatype Error = StudioNotFound | NotApiPull | NoApiBaseUrl | FetchFailed | WriteFailed

  datatype Result = Done(upserted: nat, deactivated: nat, shopUpdated: bool) | Threw(error: Error)

  datatype State = State(items: Items, shops: map<string, Shop>)

  /** One sync: the fetched feed, the time, and the order in which the active items are read. */
  datatype Job = Job(studioId: string, feed: seq<RemoteItem>, now: nat, active: seq<Key>)

  ghost predicate Runs(s: State, j: Job)
  {
    Storable(j.feed) && ListsActive(Synced(s.items, j.studioId, j.feed, j.now), j.studioId, j.active)
  }

  function SyncShop(shop: Shop, active: seq<nat>): Shop
  {
    Shop(Merged(shop.layout, active), Merged(shop.draftLayout, active))
  }

  function AfterSync(s: State, j: Job): State
    requires Runs(s, j)
  {
    var items := Synced(s.items, j.studioId, j.feed, j.now);
    State(items,
          if j.studioId in s.shops then s.shops[j.studioId := SyncShop(s.shops[j.studioId], IdsOf(items, j.active))]
          else s.shops)
  }

  ghost function Run(s: State, jobs: seq<Job>): State
  {
    if jobs == [] then s
    else
      var t := Run(s, jobs[..|jobs| - 1]);
      var j := jobs[|jobs| - 1];
      if Runs(t, j) then AfterSync(t, j) else t
  }

  ghost predicate ShowsActive(s: State, studioId: string, doc: Document)
  {
    HasSection(doc) ==>
      forall k :: k in ActiveKeys(s.items, studioId) ==> s.items.rows[k].id in Elements(Entries(doc.layout.sections))
  }

  /** Every active item of the studio is on its shop's page, and in the draft. */
  ghost predicate Covered(s: State, studioId: string)
  {
    studioId in s.shops ==>
      ShowsActive(s, studioId, s.shops[studioId].layout) && ShowsActive(s, studioId, s.shops[studioId].draftLayout)
  }

  lemma IdsOfKeys(c: Items, keys: seq<Key>)
    requires forall k :: k in keys ==> k in c.rows
    ensures forall k :: k in keys ==> c.rows[k].id in Elements(IdsOf(c, keys))
    ensures forall id :: id in Elements(IdsOf(c, keys)) ==> exists k :: k in keys && c.rows[k].id == id
  {
    forall k | k in keys ensures c.rows[k].id in Elements(IdsOf(c, keys)) {
      var i :| 0 <= i < |keys| && keys[i] == k;
      assert IdsOf(c, keys)[i] == c.rows[k].id;
    }
    forall id | id in Elements(IdsOf(c, keys)) ensures exists k :: k in keys && c.rows[k].id == id {
      var i :| 0 <= i < |keys| && IdsOf(c, keys)[i] == id;
      assert keys[i] in keys;
    }
  }

  /** After a sync the shop shows every active item, in the layout and in the draft. */
  lemma SyncCovers(s: State, j: Job)
    requires Runs(s, j)
    ensures Covered(AfterSync(s, j), j.studioId)
  {
    hide Synced, Merged, FieldsOf;
    if j.studioId in s.shops {
      var items := Synced(s.items, j.studioId, j.feed, j.now);
      IdsOfKeys(items, j.active);
      MergedCovers(AfterSync(s, j), j.studioId, s.shops[j.studioId].layout, IdsOf(items, j.active));
      MergedCovers(AfterSync(s, j), j.studioId, s.shops[j.studioId].draftLayout, IdsOf(items, j.active));
    }
  }

  lemma MergedCovers(t: State, studioId: string, doc: Document, ids: seq<nat>)
    requires forall k :: k in ActiveKeys(t.items, studioId) ==> t.items.rows[k].id in Elements(ids)
    ensures ShowsActive(t, studioId, Merged(doc, ids))
  {
    if HasSection(doc) {
      MergedShows(doc, ids);
    }
  }

  /** Other studios' items, layouts and coverage are not affected. */
  lemma SyncLeavesOthers(s: State, j: Job, studioId: string)
    requires Runs(s, j) && studioId != j.studioId
    ensures var t := AfterSync(s, j);
      && (studioId in t.shops <==> studioId in s.shops)
      && (studioId in s.shops ==> t.shops[studioId] == s.shops[studioId])
      && (forall k: Key :: k.studioId == studioId ==> (k in t.items.rows <==> k in s.items.rows))
      && (forall k: Key :: k.studioId == studioId && k in s.items.rows ==> t.items.rows[k] == s.items.rows[k])
      && (Covered(s, studioId) ==> Covered(t, studioId))
  {
    hide Synced, Merged, FieldsOf, ListsActive;
    var t := AfterSync(s, j);
    forall k: Key | k.studioId == studioId
      ensures k in t.items.rows <==> k in s.items.rows
      ensures k in s.items.rows ==> t.items.rows[k] == s.items.rows[k]
    {
      SyncMeaning(s.items, j.studioId, j.feed, j.now, k);
    }
    assert ActiveKeys(t.items, studioId) == ActiveKeys(s.items, studioId);
  }

  lemma IdsAreDistinct(c: Items, studioId: string, keys: seq<Key>)
    requires IdsInv(c) && ListsActive(c, studioId, keys)
    ensures Distinct(IdsOf(c, keys))
  {
    forall i, j | 0 <= i < j < |keys| ensures IdsOf(c, keys)[i] != IdsOf(c, keys)[j] {
      assert keys[i] in keys && keys[j] in keys;
    }
  }

  /** A sync shows no item twice in a layout that showed none twice. */
  lemma SyncKeepsDistinct(s: State, j: Job)
    requires IdsInv(s.items) && Runs(s, j) && j.studioId in s.shops
    requires HasSection(s.shops[j.studioId].layout) && Distinct(Entries(s.shops[j.studioId].layout.layout.sections))
    ensures var after := AfterSync(s, j).shops[j.studioId].layout;
      HasSection(after) && Distinct(Entries(after.layout.sections))
  {
    hide Synced, Merged, IdsInv;
    var doc, items := s.shops[j.studioId].layout, Synced(s.items, j.studioId, j.feed, j.now);
    SyncKeepsIds(s.items, j.studioId, j.feed, j.now);
    IdsAreDistinct(items, j.studioId, j.active);
    MergedShows(doc, IdsOf(items, j.active));
    MergeKeepsDistinct(doc, IdsOf(items, j.active));
  }

  predicate ShopGrown(before: Shop, after: Shop)
  {
    Grown(before.layout, after.layout) && Grown(before.draftLayout, after.draftLayout)
  }

  lemma GrownReflexive(a: Document)
    ensures Grown(a, a)
  {}

  lemma GrownTransitive(a: Document, b: Document, c: Document)
    requires Grown(a, b) && Grown(b, c)
    ensures Grown(a, c)
  {
    if a.Readable? {
      forall i | 0 <= i < |a.layout.sections|
        ensures SectionGrown(a.layout.sections[i], c.layout.sections[i], i == 0)
      {
        assert SectionGrown(a.layout.sections[i], b.layout.sections[i], i == 0);
        assert SectionGrown(b.layout.sections[i], c.layout.sections[i], i == 0);
      }
    }
  }

  /** The row of an item is never deleted and keeps its id. */
  ghost predicate RowsKept(c: Items, d: Items)
  {
    forall k :: k in c.rows ==>
      k in d.rows && d.rows[k].id == c.rows[k].id && d.rows[k].createdAt == c.rows[k].createdAt
  }

  lemma SyncKeepsRows(s: State, j: Job)
    requires Runs(s, j)
    ensures RowsKept(s.items, AfterSync(s, j).items)
  {
    hide Synced, Merged, FieldsOf, ListsActive;
    forall k | k in s.items.rows
      ensures k in AfterSync(s, j).items.rows
      ensures AfterSync(s, j).items.rows[k].id == s.items.rows[k].id
      ensures AfterSync(s, j).items.rows[k].createdAt == s.items.rows[k].createdAt
    {
      SyncMeaning(s.items, j.studioId, j.feed, j.now, k);
    }
  }

  /** Over any run of syncs of any studios: item ids stay unique, rows stay, layouts only grow at the end of
      their first section, and a shop that shows all its active items goes on doing so. */
  lemma {:induction false} RunKeepsCatalogue(s: State, jobs: seq<Job>)
    requires IdsInv(s.items)
    ensures var t := Run(s, jobs);
      && IdsInv(t.items) && RowsKept(s.items, t.items)
      && t.shops.Keys == s.shops.Keys
      && (forall id :: id in s.shops ==> ShopGrown(s.shops[id], t.shops[id]))
      && (forall id :: Covered(s, id) ==> Covered(t, id))
  {
    hide AfterSync, Synced, Grown, ListsActive, IdsInv, RowsKept, Runs, Covered;
    if jobs == [] {
      ReflexiveFacts(s);
    } else {
      var j := jobs[|jobs| - 1];
      RunKeepsCatalogue(s, jobs[..|jobs| - 1]);
      var t := Run(s, jobs[..|jobs| - 1]);
      if Runs(t, j) {
        StepKeepsCatalogue(t, j);
        var u := AfterSync(t, j);
        RowsKeptTransitive(s.items, t.items, u.items);
        forall id | id in s.shops ensures ShopGrown(s.shops[id], u.shops[id]) {
          GrownTransitive(s.shops[id].layout, t.shops[id].layout, u.shops[id].layout);
          GrownTransitive(s.shops[id].draftLayout, t.shops[id].draftLayout, u.shops[id].draftLayout);
        }
      }
    }
  }

  lemma ReflexiveFacts(s: State)
    ensures RowsKept(s.items, s.items)
    ensures forall id :: id in s.shops ==> ShopGrown(s.shops[id], s.shops[id])
  {
    forall id | id in s.shops ensures ShopGrown(s.shops[id], s.shops[id]) {
      GrownReflexive(s.shops[id].layout);
      GrownReflexive(s.shops[id].draftLayout);
    }
  }

  lemma RowsKeptTransitive(a: Items, b: Items, c: Items)
    requires RowsKept(a, b) && RowsKept(b, c)
    ensures RowsKept(a, c)
  {}

  lemma StepKeepsCatalogue(s: State, j: Job)
    requires Runs(s, j) && IdsInv(s.items)
    ensures var t := AfterSync(s, j);
      && IdsInv(t.items) && RowsKept(s.items, t.items)
      && t.shops.Keys == s.shops.Keys
      && (forall id :: id in s.shops ==> ShopGrown(s.shops[id], t.shops[id]))
      && (forall id :: Covered(s, id) ==> Covered(t, id))
  {
    hide Synced, Merged, Grown, IdsInv, RowsKept, Covered;
    var t := AfterSync(s, j);
    SyncKeepsRows(s, j);
    SyncKeepsIds(s.items, j.studioId, j.feed, j.now);
    forall id | id in s.shops ensures ShopGrown(s.shops[id], t.shops[id]) {
      if id == j.studioId {
        MergeOnlyAppends(s.shops[id].layout, IdsOf(t.items, j.active));
        MergeOnlyAppends(s.shops[id].draftLayout, IdsOf(t.items, j.active));
      } else {
        ReflexiveFacts(s);
      }
    }
    forall id | Covered(s, id) ensures Covered(t, id) {
      if id == j.studioId {
        SyncCovers(s, j);
      } else {
        SyncLeavesOthers(s, j, id);
      }
    }
  }

  /** Syncing again with the same feed, however the active items are listed, leaves every shop as it is. */
  lemma SecondSyncIsQuiet(s: State, j: Job, again: Job)
    requires Runs(s, j) && Runs(AfterSync(s, j), again)
    requires again.studioId == j.studioId && again.feed == j.feed
    ensures AfterSync(AfterSync(s, j), again).shops == AfterSync(s, j).shops
  {
    hide Synced, Merged, Merge, FieldsOf, LastOf;
    var t := AfterSync(s, j);
    var u := AfterSync(t, again);
    if j.studioId in s.shops {
      FeedDecidesActive(s.items, j.studioId, j.feed, j.now);
      FeedDecidesActive(t.items, j.studioId, j.feed, again.now);
      SameIds(t.items, u.items, j, again);
      QuietMerge(s.shops[j.studioId].layout, IdsOf(t.items, j.active), IdsOf(u.items, again.active));
      QuietMerge(s.shops[j.studioId].draftLayout, IdsOf(t.items, j.active), IdsOf(u.items, again.active));
    }
  }

  lemma QuietMerge(doc: Document, active: seq<nat>, again: seq<nat>)
    requires Elements(again) <= Elements(active)
    ensures Merged(Merged(doc, active), again) == Merged(doc, active)
  {
    SecondMerge(doc, active, again);
  }

  lemma SameIds(c: Items, d: Items, j: Job, again: Job)
    requires Storable(again.feed) && d == Synced(c, again.studioId, again.feed, again.now)
    requires ListsActive(c, j.studioId, j.active) && ListsActive(d, j.studioId, again.active)
    requires ActiveKeys(c, j.studioId) == ActiveKeys(d, j.studioId)
    ensures Elements(IdsOf(d, again.active)) <= Elements(IdsOf(c, j.active))
  {
    hide Synced, FieldsOf, LastOf, IdsOf, Elements;
    IdsOfKeys(c, j.active);
    IdsOfKeys(d, again.active);
    forall id | id in Elements(IdsOf(d, again.active)) ensures id in Elements(IdsOf(c, j.active)) {
      var k :| k in again.active && d.rows[k].id == id;
      SyncMeaning(c, again.studioId, again.feed, again.now, k);
      assert k in ActiveKeys(c, j.studioId);
    }
  }

  // ---------------------------------------------------------------- the worker

  class Database {
    const studios: map<string, Studio>
    var rows: map<Key, Row>
    var nextId: nat
    var shops: map<string, Shop>

    constructor (studios: map<string, Studio>, shops: map<string, Shop>)
      ensures this.studios == studios && Snapshot() == State(Items(map[], 0), shops)
    {
      this.studios := studios;
      this.shops := shops;
      rows, nextId := map[], 0;
    }

    function Catalogue(): Items
      reads `rows, `nextId
    {
      Items(rows, nextId)
    }

    function Snapshot(): State
      reads this
    {
      State(Catalogue(), shops)
    }

    /** One transaction: a write that throws undoes the writes before it. */
    method UpsertCatalogueItems(studioId: string, feed: seq<RemoteItem>, now: nat) returns (r: Option<(nat, nat)>)
      modifies `rows, `nextId
      ensures r.Some? <==> Storable(feed)
      ensures Catalogue() == if Storable(feed) then Synced(old(Catalogue()), studioId, feed, now) else old(Catalogue())
      ensures Storable(feed) ==> r.value == (|feed|, |Stale(old(Catalogue()), studioId, ExternalIds(feed))|)
    {
      hide FieldsOf;
      ghost var before := Catalogue();
      var savedRows, savedId := rows, nextId;
      for n := 0 to |feed|
        invariant Storable(feed[..n])
        invariant Catalogue() == UpsertAll(before, studioId, feed[..n], now)
      {
        var item := feed[n];
        assert feed[..n + 1] == feed[..n] + [item];
        var fields := FieldsOf(item);
        if fields.None? {
          rows, nextId := savedRows, savedId;
          assert item in feed;
          return None;
        }
        var k := Key(studioId, item.externalId);
        if k in rows {
          rows := rows[k := rows[k].(fields := fields.value, isActive := true, syncedAt := Some(now))];
        } else {
          rows := rows[k := Row(nextId, fields.value, true, true, Some(now), now)];
          nextId := nextId + 1;
        }
      }
      assert feed[..|feed|] == feed;
      var externalIds := ExternalIds(feed);
      var stale := Stale(Catalogue(), studioId, externalIds);
      StaleBeforeUpsert(before, studioId, feed, now);
      rows := map k | k in rows :: if k in stale then rows[k].(isActive := false) else rows[k];
      return Some((|feed|, |stale|));
    }

    /** The active items of a studio, oldest first, in an order the store chooses among equals. */
    method FindActive(studioId: string) returns (keys: seq<Key>)
      ensures ListsActive(Catalogue(), studioId, keys)
      ensures forall k :: k in keys <==> k in rows && k.studioId == studioId && rows[k].isActive
      ensures forall i, j :: 0 <= i < j < |keys| ==>
                keys[i] in rows && keys[j] in rows && rows[keys[i]].createdAt <= rows[keys[j]].createdAt
    {
      keys := [];
      var rest := ActiveKeys(Catalogue(), studioId);
      while rest != {}
        invariant rest <= ActiveKeys(Catalogue(), studioId)
        invariant forall k :: k in keys <==> k in ActiveKeys(Catalogue(), studioId) - rest
        invariant forall i, j :: 0 <= i < j < |keys| ==> keys[i] != keys[j] && Older(Catalogue(), keys[i], keys[j])
        invariant forall k, l :: k in keys && l in rest ==> Older(Catalogue(), k, l)
        decreases |rest|
      {
        OldestExists(Catalogue(), rest);
        var next :| next in rest && forall k :: k in rest ==> Older(Catalogue(), next, k);
        assert next !in keys && forall i :: 0 <= i < |keys| ==> keys[i] in keys && Older(Catalogue(), keys[i], next);
        keys := keys + [next];
        rest := rest - {next};
      }
    }

    static method MergeNewItemsIntoLayout(doc: Document, active: seq<nat>) returns (r: Option<Layout>)
      ensures r == Merge(doc, active)
    {
      if !doc.Readable? {
        return None;
      }
      var sections := doc.layout.sections;
      if |sections| == 0 {
        return None;
      }
      var layoutIds: set<nat> := {};
      for n := 0 to |sections|
        invariant layoutIds + Elements(Entries(sections[n..])) == Elements(Entries(sections))
      {
        assert sections[n..][1..] == sections[n + 1..];
        ElementsOfConcat(sections[n].itemIds, Entries(sections[n + 1..]));
        layoutIds := layoutIds + Elements(sections[n].itemIds);
      }
      assert Elements(Entries(sections[|sections|..])) == {};
      assert layoutIds == Elements(Entries(sections));
      var newIds: seq<nat> := [];
      for n := 0 to |active|
        invariant newIds == Missing(layoutIds, active[..n])
      {
        assert active[..n + 1][..n] == active[..n];
        if active[n] !in layoutIds {
          newIds := newIds + [active[n]];
        }
      }
      assert active[..|active|] == active;
      if |newIds| == 0 {
        return None;
      }
      sections := sections[0 := sections[0].(itemIds := sections[0].itemIds + newIds)];
      assert sections == Append(doc.layout.sections, newIds);
      return Some(doc.layout.(sections := sections));
    }

    /** `feed` is None where fetching or reading it failed. */
    method CatalogueSync(studioId: string, feed: Option<seq<RemoteItem>>, now: nat)
      returns (r: Result, ghost active: seq<Key>)
      modifies this
      ensures studioId !in studios ==> r == Threw(StudioNotFound)
      ensures studioId in studios ==>
        && (!studios[studioId].apiPull ==> r == Threw(NotApiPull))
        && (studios[studioId].apiPull && studios[studioId].apiBaseUrl in {None, Some("")} ==> r == Threw(NoApiBaseUrl))
      ensures r.Threw? <==>
        || studioId !in studios || !studios[studioId].apiPull || studios[studioId].apiBaseUrl in {None, Some("")}
        || feed.None? || !Storable(feed.value)
      ensures r.Threw? ==> Snapshot() == old(Snapshot())
      ensures r.Done? ==>
        var job := Job(studioId, feed.value, now, active);
        && Runs(old(Snapshot()), job) && Snapshot() == AfterSync(old(Snapshot()), job)
        && r.upserted == |feed.value|
        && r.deactivated == |Stale(old(Catalogue()), studioId, ExternalIds(feed.value))|
        && (r.shopUpdated <==> shops != old(shops))
    {
      hide FieldsOf, Synced, Merge, Stale;
      active := [];
      if studioId !in studios {
        return Threw(StudioNotFound), [];
      }
      var studio := studios[studioId];
      if !studio.apiPull {
        return Threw(NotApiPull), [];
      }
      if studio.apiBaseUrl.None? || studio.apiBaseUrl.value == "" {
        return Threw(NoApiBaseUrl), [];
      }
      if feed.None? {
        return Threw(FetchFailed), [];
      }
      var counts := UpsertCatalogueItems(studioId, feed.value, now);
      if counts.None? {
        return Threw(WriteFailed), [];
      }
      var keys := FindActive(studioId);
      active := keys;
      var shopUpdated := false;
      if studioId in shops {
        var shop := shops[studioId];
        var activeIds := IdsOf(Catalogue(), keys);
        var newLayout := MergeNewItemsIntoLayout(shop.layout, activeIds);
        var newDraftLayout: Option<Layout> := None;
        if !shop.draftLayout.Absent? {
          newDraftLayout := MergeNewItemsIntoLayout(shop.draftLayout, activeIds);
        }
        AbsentStays(activeIds);
        MergeChanges(shop.layout, activeIds);
        MergeChanges(shop.draftLayout, activeIds);
        if newLayout.Some? || newDraftLayout.Some? {
          shops := shops[studioId := Shop(
            if newLayout.Some? then Readable(newLayout.value) else shop.layout,
            if newDraftLayout.Some? then Readable(newDraftLayout.value) else shop.draftLayout)];
          shopUpdated := true;
        }
        assert shops[studioId] == SyncShop(shop, activeIds);
      }
      r := Done(counts.value.0, counts.value.1, shopUpdated);
    }
  }

  lemma AbsentStays(active: seq<nat>)
    ensures Merge(Absent, active) == None
  {}

  lemma MergeChanges(doc: Document, active: seq<nat>)
    ensures Merge(doc, active).Some? <==> Merged(doc, active) != doc
  {
    if Merge(doc, active).Some? {
      var missing := Missing(Elements(Entries(doc.layout.sections)), active);
      assert |Merge(doc, active).value.sections[0].itemIds| == |doc.layout.sections[0].itemIds| + |missing|;
    }
  }
}
