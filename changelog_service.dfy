/** The changelog store (src/services/api/changelogService.js): release
    notes listed newest first, with create, update and delete. */
module ChangelogService {
  import opened Common
  import opened Lists

  datatype Entry = Entry(
    id: int,
    title: string,
    description: string,
    category: string,
    releaseDate: int,          // timestamps as integers
    relatedPostIds: seq<int>)  // the feedback posts the release answers

  /** What a caller hands to `create`. */
  datatype EntryDraft = EntryDraft(title: string, description: string, category: string, relatedPostIds: seq<int>)

  /** What a caller hands to `update`; None means the key is absent. */
  datatype EntryPatch = EntryPatch(
    title: Option<string>,
    description: Option<string>,
    category: Option<string>,
    releaseDate: Option<int>,
    relatedPostIds: Option<seq<int>>)

  /** The key of `(a, b) => new Date(b.releaseDate) - new Date(a.releaseDate)`:
      ascending in the negated date is descending in the date. */
  function NegReleaseDate(e: Entry): int
  {
    -e.releaseDate
  }

  /** `getAll()`: a sorted copy of the store, newest release first. */
  function Listing(entries: seq<Entry>): seq<Entry>
  {
    SortByKey(entries, NegReleaseDate)
  }

  /** The listing is a permutation of the store, newest first, and entries
      released at the same time keep their store order. */
  lemma ListingOrdered(entries: seq<Entry>, d: int)
    ensures multiset(Listing(entries)) == multiset(entries)
    ensures forall i, j :: 0 <= i < j < |Listing(entries)| ==>
              Listing(entries)[i].releaseDate >= Listing(entries)[j].releaseDate
    ensures WithKey(Listing(entries), NegReleaseDate, d) == WithKey(entries, NegReleaseDate, d)
  {
    SortByKeySorted(entries, NegReleaseDate);
    SortByKeyStable(entries, NegReleaseDate, d);
  }

  function Ids(entries: seq<Entry>): (ids: seq<int>)
    ensures |ids| == |entries|
    ensures forall i :: 0 <= i < |entries| ==> ids[i] == entries[i].id
  {
    seq(|entries|, i requires 0 <= i < |entries| => entries[i].id)
  }

  /** `entries.findIndex(e => e.Id === parseInt(id))`. */
  function IndexOfId(entries: seq<Entry>, id: int): (r: int)
    ensures -1 <= r < |entries|
    ensures r == -1 <==> forall i :: 0 <= i < |entries| ==> entries[i].id != id
    ensures 0 <= r ==> entries[r].id == id && forall i :: 0 <= i < r ==> entries[i].id != id
  {
    FindIndex(entries, (e: Entry) => e.id == id)
  }

  /** The record `create` builds: the draft, with the allocated id and the
      release date forced to now. */
  function NewEntry(draft: EntryDraft, id: int, now: int): (e: Entry)
    ensures e.id == id && e.releaseDate == now
    ensures e.title == draft.title && e.description == draft.description
    ensures e.category == draft.category && e.relatedPostIds == draft.relatedPostIds
  {
    Entry(id, draft.title, draft.description, draft.category, now, draft.relatedPostIds)
  }

  /** The `{...entry, ...updateData}` merge of `update`. */
  function ApplyPatch(e: Entry, patch: EntryPatch): (r: Entry)
    ensures r.id == e.id
    ensures Overrides(patch.title, e.title, r.title) && Overrides(patch.description, e.description, r.description)
    ensures Overrides(patch.category, e.category, r.category) && Overrides(patch.releaseDate, e.releaseDate, r.releaseDate)
    ensures Overrides(patch.relatedPostIds, e.relatedPostIds, r.relatedPostIds)
  {
    Entry(e.id, Or(patch.title, e.title), Or(patch.description, e.description),
          Or(patch.category, e.category), Or(patch.releaseDate, e.releaseDate),
          Or(patch.relatedPostIds, e.relatedPostIds))
  }

  /** An empty patch changes nothing, and applying a patch twice is the
      same as applying it once. */
  lemma ApplyPatchLaws(e: Entry, patch: EntryPatch)
    ensures ApplyPatch(e, EntryPatch(None, None, None, None, None)) == e
    ensures ApplyPatch(ApplyPatch(e, patch), patch) == ApplyPatch(e, patch)
  {
  }

  /** An entry created now, when no release is dated later, heads the
      listing: it sorts first on its date, and on a tie it is first in the
      store because `create` prepends it. */
  lemma {:induction false} NewEntryListedFirst(entries: seq<Entry>, draft: EntryDraft, now: int)
    requires forall e :: e in entries ==> e.releaseDate <= now
    ensures Listing([NewEntry(draft, NextId(Ids(entries)), now)] + entries)[0]
         == NewEntry(draft, NextId(Ids(entries)), now)
  {
    var e := NewEntry(draft, NextId(Ids(entries)), now);
    var s := [e] + entries;
    assert s[0] == e && s[1..] == entries;
    var rest := SortByKey(entries, NegReleaseDate);
    assert Listing(s) == Insert(e, rest, NegReleaseDate);
    if rest != [] {
      assert rest[0] in multiset(entries);
    }
  }

  /** The mock store: the module-level `entries` array. */
  class ChangelogStore {
    var entries: seq<Entry>

    constructor (initial: seq<Entry>)
      ensures entries == initial
    {
      entries := initial;
    }

    /** `getAll()`: newest first; the store itself keeps its order. */
    method GetAll() returns (r: seq<Entry>)
      ensures r == Listing(entries)
    {
      r := SortByKey(entries, NegReleaseDate);
    }

    /** `getById(id)`. */
    method GetById(id: int) returns (r: Result<Entry>)
      ensures r.Err? <==> forall i :: 0 <= i < |entries| ==> entries[i].id != id
      ensures r.Err? ==> r.error == NotFound(id)
      ensures r.Ok? ==> r.value == entries[IndexOfId(entries, id)] && r.value.id == id
    {
      var i := IndexOfId(entries, id);
      if i == -1 {
        r := Err(NotFound(id));
      } else {
        r := Ok(entries[i]);
      }
    }

    /** `create(entryData)`: puts the new entry at the front of the store. */
    method Create(draft: EntryDraft, now: int) returns (e: Entry)
      modifies this
      ensures e == NewEntry(draft, NextId(Ids(old(entries))), now)
      ensures e.id !in Ids(old(entries))
      ensures entries == [e] + old(entries)
    {
      e := NewEntry(draft, NextId(Ids(entries)), now);
      entries := [e] + entries;
    }

    /** `update(id, updateData)`. */
    method Update(id: int, patch: EntryPatch) returns (r: Result<Entry>)
      modifies this
      ensures var k := IndexOfId(old(entries), id);
        && (k == -1 ==> r == Err(NotFound(id)) && entries == old(entries))
        && (k >= 0 ==> entries == old(entries)[k := ApplyPatch(old(entries)[k], patch)] && r == Ok(entries[k]))
    {
      var k := IndexOfId(entries, id);
      if k == -1 {
        r := Err(NotFound(id));
        return;
      }
      entries := entries[k := ApplyPatch(entries[k], patch)];
      r := Ok(entries[k]);
    }

    /** `delete(id)`: removes the one entry and returns it. */
    method Delete(id: int) returns (r: Result<Entry>)
      modifies this
      ensures var k := IndexOfId(old(entries), id);
        && (k == -1 ==> r == Err(NotFound(id)) && entries == old(entries))
        && (k >= 0 ==> r == Ok(old(entries)[k]) && entries == RemoveAt(old(entries), k))
    {
      var k := IndexOfId(entries, id);
      if k == -1 {
        r := Err(NotFound(id));
        return;
      }
      r := Ok(entries[k]);
      entries := RemoveAt(entries, k);
    }
  }
}
