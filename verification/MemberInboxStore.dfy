/**
 * The durable inbox store: one file per item in a member's directory, read and sorted anew
 * by every operation. Its contents are those of the inbox as a value.
 */
module MemberInboxStore {
  import opened Wrappers
  import opened Text
  import opened Sorting
  import opened MemberInbox
  import opened MemberInboxTheorems

  /** What is in a file: an item for this member, or something that fails validation. */
  datatype Record = Good(item: Item) | Malformed

  /** Each good file is named after its item's id. */
  predicate Named(files: map<string, Record>) {
    forall name | name in files && files[name].Good? :: files[name].item.id == name
  }

  predicate Stored(files: map<string, Record>, x: Item) {
    x.id in files && files[x.id] == Good(x)
  }

  /** The items of the directory in their order. */
  ghost predicate Lists(files: map<string, Record>, items: seq<Item>) {
    Increasing(items, BySequence) && forall x: Item :: x in items <==> Stored(files, x)
  }

  function MalformedOnly(files: map<string, Record>): map<string, Record> {
    map name | name in files && files[name].Malformed? :: files[name]
  }

  function GoodOnly(files: map<string, Record>): map<string, Record> {
    map name | name in files && files[name].Good? :: files[name]
  }

  /** What is left of the directory, and what is set aside, while `names` are still to be read. */
  function Remaining(files: map<string, Record>, names: set<string>): map<string, Record> {
    map name | name in files && (name in names || files[name].Good?) :: files[name]
  }

  function Aside(files: map<string, Record>, names: set<string>): map<string, Record> {
    map name | name in files && name !in names && files[name].Malformed? :: files[name]
  }

  lemma OneNameRead(files: map<string, Record>, names: set<string>, name: string, quarantined: map<string, Record>)
    requires name in files && name in names
    ensures name in Remaining(files, names) && Remaining(files, names)[name] == files[name]
    ensures Remaining(files, names - {name}) ==
      if files[name].Good? then Remaining(files, names) else Remaining(files, names) - {name}
    ensures quarantined + Aside(files, names - {name}) ==
      if files[name].Good? then quarantined + Aside(files, names) else (quarantined + Aside(files, names))[name := files[name]]
  {
  }

  lemma AllNamesRead(files: map<string, Record>)
    ensures Remaining(files, files.Keys) == files && Aside(files, files.Keys) == map[]
    ensures Remaining(files, {}) == GoodOnly(files) && Aside(files, {}) == MalformedOnly(files)
  {
  }

  // ---------------------------------------------------------------- storing and removing

  /** Items of a directory whose contents are in order have different sequences. */
  lemma DifferentSequences(files: map<string, Record>, items: seq<Item>, x: Item, y: Item)
    requires Lists(files, items) && Stored(files, x) && Stored(files, y) && x.id != y.id
    ensures x.sequence != y.sequence
  {
    assert x in items && y in items;
    var i :| 0 <= i < |items| && items[i] == x;
    var j :| 0 <= j < |items| && items[j] == y;
  }

  /** Store an item, in place of one with the same id if there is one. */
  function PutItem(items: seq<Item>, x: Item): seq<Item> {
    Keep(items, {x.id}) + [x]
  }

  lemma PutIncreasing(items: seq<Item>, x: Item)
    requires Increasing(items, BySequence) && x.sequence == NextSequence(items, 0)
    ensures Increasing(PutItem(items, x), BySequence)
  {
    KeepIncreasing(items, {x.id});
    KeepHas(items, {x.id});
    NextIsAbove(items, 0);
    var kept := Keep(items, {x.id});
    hide Keep, NextSequence;
    forall k | 0 <= k < |kept| ensures kept[k].sequence < x.sequence {
      assert kept[k] in items;
    }
  }

  lemma PutElements(files: map<string, Record>, items: seq<Item>, x: Item, y: Item)
    requires Named(files) && (y in items <==> Stored(files, y))
    ensures y in PutItem(items, x) <==> Stored(files[x.id := Good(x)], y)
  {
    KeepHas(items, {x.id});
    hide Keep;
  }

  lemma PutLists(files: map<string, Record>, items: seq<Item>, x: Item)
    requires Lists(files, items) && Named(files) && x.sequence == NextSequence(items, 0)
    ensures Lists(files[x.id := Good(x)], PutItem(items, x)) && Named(files[x.id := Good(x)])
  {
    PutIncreasing(items, x);
    hide PutItem, Increasing, Stored;
    forall y: Item ensures y in PutItem(items, x) <==> Stored(files[x.id := Good(x)], y) {
      assert y in items <==> Stored(files, y);
      PutElements(files, items, x, y);
    }
  }

  lemma KeepIncreasing(items: seq<Item>, ids: set<string>)
    requires Increasing(items, BySequence)
    ensures Increasing(Keep(items, ids), BySequence)
  {
    var less := (a: Item, b: Item) => a.sequence < b.sequence;
    KeepPairwise(items, ids, less);
    hide Keep;
    var kept := Keep(items, ids);
    forall i, j | 0 <= i < j < |kept| ensures kept[i].sequence < kept[j].sequence {
      assert less(kept[i], kept[j]);
    }
  }

  lemma RemoveLists(files: map<string, Record>, items: seq<Item>, id: string)
    requires Lists(files, items) && Named(files)
    ensures Lists(files - {id}, Keep(items, {id})) && Named(files - {id})
    ensures id in Ids(items) <==> id in files && files[id].Good?
  {
    KeepIncreasing(items, {id});
    KeepHas(items, {id});
    hide Keep, Increasing;
    forall y: Item ensures y in Keep(items, {id}) <==> Stored(files - {id}, y) {
      assert y in items <==> Stored(files, y);
    }
    if id in files && files[id].Good? {
      assert Stored(files, files[id].item) && files[id].item in items;
    }
  }

  /** Where the new id is new to the store, enqueueing is what it is for the inbox as a value. */
  lemma PutIsAppend(items: seq<Item>, x: Item)
    ensures PutItem(items, x) == items + [x] <==> x.id !in Ids(items)
  {
    KeepLength(items, {x.id});
    InIds(items, x.id);
    if PutItem(items, x) == items + [x] {
      assert |Keep(items, {x.id})| == |items|;
    }
  }

  /** An id that may name a file of its own in the member's directory. */
  predicate SafeItemId(id: string) {
    id != [] && '/' !in id && '\\' !in id && '\0' !in id && forall k | 0 <= k < |id| - 1 :: !(id[k] == '.' && id[k + 1] == '.')
  }

  class MemberInboxStore {
    const target: Target
    const h: Hash
    var files: map<string, Record>
    /** The files that failed validation; one that comes under the same name replaces an earlier one. */
    var quarantined: map<string, Record>
    ghost var contents: seq<Item>

    ghost predicate Valid()
      reads this
    {
      Named(files) && Lists(files, contents)
    }

    constructor (member: Target, hash: Hash)
      ensures Valid() && contents == [] && target == member && h == hash
    {
      target, h := member, hash;
      files, quarantined, contents := map[], map[], [];
    }

    /** Read every file; what fails validation is put into quarantine. */
    method ReadItems() returns (items: seq<Item>)
      requires Valid()
      modifies `files, `quarantined
      ensures Valid() && contents == old(contents)
      ensures items == contents && files == GoodOnly(old(files))
      ensures quarantined == old(quarantined) + MalformedOnly(old(files))
    {
      hide Increasing, Sorted, Remaining, Aside, GoodOnly, MalformedOnly;
      AllNamesRead(files);
      ghost var all, before := files, quarantined;
      var names := files.Keys;
      var found: seq<Item> := [];
      ghost var read: set<string> := {};
      while names != {}
        invariant names !! read && names + read == all.Keys
        invariant files == Remaining(all, names) && quarantined == before + Aside(all, names)
        invariant forall x: Item :: x in found <==> Stored(all, x) && x.id in read
        invariant forall i, j | 0 <= i < j < |found| :: found[i].id != found[j].id
        decreases names
      {
        var name :| name in names;
        OneNameRead(all, names, name, before);
        names := names - {name};
        if files[name].Good? {
          assert forall k | 0 <= k < |found| :: found[k] in found;
          found := found + [files[name].item];
        } else {
          quarantined := quarantined[name := files[name]];
          files := files - {name};
        }
        read := read + {name};
      }
      items := Sorted(found, BySequence);
      AllFound(all, contents, found);
    }

    method Persist(x: Item)
      requires Valid() && x.sequence == NextSequence(contents, 0)
      modifies this
      ensures Valid() && contents == PutItem(old(contents), x) && files == old(files)[x.id := Good(x)]
    {
      PutLists(files, contents, x);
      files := files[x.id := Good(x)];
      contents := PutItem(contents, x);
    }

    method Enqueue(payload: Payload, now: int) returns (result: Result<Item, Failure>)
      requires Valid()
      modifies this
      ensures Valid()
      ensures result.Err? ==> contents == old(contents)
      ensures result == Err(InvalidPayload) <==> !ValidPayload(payload)
      ensures result == Err(CapacityExceeded) <==> ValidPayload(payload) && |old(contents)| >= MAX_INBOX_ITEMS
      ensures result.Ok? ==> result.value == NewItem(h, target, old(contents), payload, now) && contents == PutItem(old(contents), result.value)
    {
      hide ValidPayload, ItemId, PutItem;
      if !ValidPayload(payload) { return Err(InvalidPayload); }
      var items := ReadItems();
      if |items| >= MAX_INBOX_ITEMS { return Err(CapacityExceeded); }
      var item := NewItem(h, target, items, payload, now);
      Persist(item);
      return Ok(item);
    }

    method EnqueueWithId(payload: Payload, now: int, id: string) returns (result: Result<(), Failure>)
      requires Valid()
      modifies this
      ensures Valid()
      ensures
        var spec := MemberInbox.EnqueueWithId(old(contents), target, payload, now, id);
        if ValidPayload(payload) && !SafeItemId(id) then result == Err(InvalidItemId) && contents == old(contents)
        else if spec.Err? then result == Err(spec.error) && contents == old(contents) else result.Ok? && contents == spec.value
    {
      hide ValidPayload, SafeItemId;
      if !ValidPayload(payload) { return Err(InvalidPayload); }
      if !SafeItemId(id) { return Err(InvalidItemId); }
      var items := ReadItems();
      var found := FindId(items, id);
      if found.Some? {
        var existing := items[found.value];
        if existing.target != target || existing.payload != payload { return Err(IdempotencyConflict); }
        return Ok(());
      }
      if |items| >= MAX_INBOX_ITEMS { return Err(CapacityExceeded); }
      var item := Item(id, target, payload, now, NextSequence(items, 0));
      Persist(item);
      InIds(items, id);
      PutIsAppend(items, item);
      return Ok(());
    }

    method PeekOldest() returns (oldest: Option<Item>)
      requires Valid()
      modifies `files, `quarantined
      ensures Valid() && contents == old(contents)
      ensures if contents == [] then oldest.None? else oldest == Some(contents[0])
      ensures oldest.Some? ==> forall x | x in contents :: oldest.value.sequence <= x.sequence
    {
      var items := ReadItems();
      if items == [] { return None; }
      return Some(items[0]);
    }

    /** At most `limit` items, oldest first. */
    method List(limit: int) returns (ids: seq<string>)
      requires Valid()
      modifies `files, `quarantined
      ensures Valid() && contents == old(contents)
      ensures |ids| == if limit <= 0 then 0 else if limit < |contents| then limit else |contents|
      ensures forall k | 0 <= k < |ids| :: ids[k] == contents[k].id
    {
      var items := ReadItems();
      var shown := if limit <= 0 then 0 else if limit < |items| then limit else |items|;
      ids := seq(shown, i requires 0 <= i < shown => items[i].id);
    }

    /** Unlink the item's file; an id that is no safe file name is refused. */
    method Remove(id: string) returns (removed: Result<bool, Failure>)
      requires Valid()
      modifies this
      ensures Valid()
      ensures removed.Err? <==> !SafeItemId(id)
      ensures removed.Err? ==> removed.error == InvalidItemId && contents == old(contents) && files == old(files)
      ensures removed.Ok? ==> contents == Keep(old(contents), {id}) && (removed.value <==> id in old(files))
      ensures removed.Ok? && id in Ids(old(contents)) ==> removed.value
    {
      hide SafeItemId;
      if !SafeItemId(id) { return Err(InvalidItemId); }
      RemoveLists(files, contents, id);
      removed := Ok(id in files);
      files := files - {id};
      contents := Keep(contents, {id});
    }
  }

  lemma AllFound(files: map<string, Record>, contents: seq<Item>, found: seq<Item>)
    requires Named(files) && Lists(files, contents)
    requires forall x: Item :: x in found <==> Stored(files, x)
    requires forall i, j | 0 <= i < j < |found| :: found[i].id != found[j].id
    ensures Sorted(found, BySequence) == contents
    ensures Lists(GoodOnly(files), contents) && Named(GoodOnly(files))
  {
    forall i, j | 0 <= i < j < |found| ensures found[i].sequence != found[j].sequence {
      assert found[i] in found && found[j] in found;
      DifferentSequences(files, contents, found[i], found[j]);
    }
    SortedIncreasing(found, BySequence);
    SortedMembers(found, BySequence);
    hide Sorted;
    SameElements(Sorted(found, BySequence), contents, BySequence);
    hide Increasing;
    assert forall x: Item :: Stored(GoodOnly(files), x) <==> Stored(files, x);
  }
}
