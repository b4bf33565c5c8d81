/** The per-seller product tags: at most thirty per seller, names stored
    trimmed and unique per seller, listed by name. */
module Tags {
  import opened Wrappers
  import Seqs
  import Text

  /** The most tags one seller may own. */
  const MAX_TAGS_PER_SELLER: nat := 30
  const DEFAULT_COLOR: string := "emerald"

  datatype Tag = Tag(id: nat, name: string, sellerId: string, color: string)

  datatype TagError =
    | LimitReached      // 'Maximum limit of 30 tags reached'
    | AlreadyExists     // 'Tag already exists for this seller'
    | ValidationFailed  // a required field is empty

  /** The keep-predicate of the `{ sellerId }` query. */
  function OwnedBy(sellerId: string): Tag -> bool
  {
    (t: Tag) => t.sellerId == sellerId
  }

  function SellerTags(tags: seq<Tag>, sellerId: string): seq<Tag>
  {
    Seqs.Filter(tags, OwnedBy(sellerId))
  }

  /** Byte-wise string order, as the database sorts names. */
  predicate LexLe(a: string, b: string)
  {
    |a| == 0 || (|b| > 0 && (a[0] < b[0] || (a[0] == b[0] && LexLe(a[1..], b[1..]))))
  }

  lemma {:induction false} LexLeTotal(a: string, b: string)
    ensures LexLe(a, b) || LexLe(b, a)
  {
    if |a| > 0 && |b| > 0 && a[0] == b[0] {
      LexLeTotal(a[1..], b[1..]);
    }
  }

  lemma {:induction false} LexLeTrans(a: string, b: string, c: string)
    requires LexLe(a, b) && LexLe(b, c)
    ensures LexLe(a, c)
  {
    if |a| > 0 && |b| > 0 && |c| > 0 && a[0] == b[0] && b[0] == c[0] {
      LexLeTrans(a[1..], b[1..], c[1..]);
    }
  }

  predicate SortedByName(tags: seq<Tag>)
  {
    forall i, j :: 0 <= i < j < |tags| ==> LexLe(tags[i].name, tags[j].name)
  }

  /** Inserts `t` before the first tag whose name it does not exceed. */
  function Insert(t: Tag, sorted: seq<Tag>): (r: seq<Tag>)
    ensures multiset(r) == multiset(sorted) + multiset{t}
  {
    if |sorted| == 0 then [t]
    else if LexLe(t.name, sorted[0].name) then [t] + sorted
    else
      assert sorted == [sorted[0]] + sorted[1..];
      [sorted[0]] + Insert(t, sorted[1..])
  }

  /** Insertion keeps a list sorted by name. */
  lemma {:induction false} InsertKeepsSorted(t: Tag, sorted: seq<Tag>)
    requires SortedByName(sorted)
    ensures SortedByName(Insert(t, sorted))
  {
    if |sorted| == 0 {
    } else if LexLe(t.name, sorted[0].name) {
      forall j | 0 < j < |sorted| ensures LexLe(t.name, sorted[j].name) {
        LexLeTrans(t.name, sorted[0].name, sorted[j].name);
      }
    } else {
      LexLeTotal(t.name, sorted[0].name);
      InsertKeepsSorted(t, sorted[1..]);
      var rest := Insert(t, sorted[1..]);
      forall j | 0 <= j < |rest| ensures LexLe(sorted[0].name, rest[j].name) {
        assert rest[j] in multiset(rest);
        if rest[j] != t {
          assert rest[j] in sorted[1..];
        }
      }
      var r := Insert(t, sorted);
      assert r == [sorted[0]] + rest;
      forall i, j | 0 <= i < j < |r| ensures LexLe(r[i].name, r[j].name) {
        if i > 0 {
          assert r[i] == rest[i - 1] && r[j] == rest[j - 1];
        }
      }
    }
  }

  /** `.sort({ name: 1 })`: the same tags, ordered by name. */
  function SortByName(tags: seq<Tag>): (r: seq<Tag>)
    ensures SortedByName(r)
    ensures multiset(r) == multiset(tags)
  {
    if |tags| == 0 then []
    else
      assert tags == [tags[0]] + tags[1..];
      InsertKeepsSorted(tags[0], SortByName(tags[1..]));
      Insert(tags[0], SortByName(tags[1..]))
  }

  /** Which tags one seller owns: the seller's tags and no other. */
  lemma {:induction false} FindAllSelects(tags: seq<Tag>, sellerId: string, t: Tag)
    ensures t in SortByName(SellerTags(tags, sellerId)) <==> t in tags && t.sellerId == sellerId
  {
    assert t in SortByName(SellerTags(tags, sellerId)) <==> t in multiset(SellerTags(tags, sellerId));
  }

  /** No two tags share an id, and no seller has two tags with one name. */
  predicate UniqueTags(tags: seq<Tag>)
  {
    forall i, j :: 0 <= i < j < |tags| ==>
      tags[i].id != tags[j].id && (tags[i].sellerId != tags[j].sellerId || tags[i].name != tags[j].name)
  }

  predicate HasName(tags: seq<Tag>, sellerId: string, name: string)
  {
    exists i :: 0 <= i < |tags| && tags[i].sellerId == sellerId && tags[i].name == name
  }

  /** The colour stored: the given one unless absent or empty. */
  function ColorOrDefault(color: Option<string>): (r: string)
    ensures r != ""
    ensures color.Some? && color.value != "" ==> r == color.value
  {
    if color.Some? && color.value != "" then color.value else DEFAULT_COLOR
  }

  /** The keep-predicate of `deleteOne({ _id: id, sellerId })`. */
  function NotTheTag(id: nat, sellerId: string): Tag -> bool
  {
    (t: Tag) => !(t.id == id && t.sellerId == sellerId)
  }

  /** Deleting a seller's tag leaves every other seller's tags as they were. */
  lemma {:induction false} DeleteKeepsOtherSellers(tags: seq<Tag>, id: nat, sellerId: string, other: string)
    requires other != sellerId
    ensures SellerTags(Seqs.Filter(tags, NotTheTag(id, sellerId)), other) == SellerTags(tags, other)
  {
    Seqs.FilterOfFilter(tags, NotTheTag(id, sellerId), OwnedBy(other));
  }

  lemma {:induction false} SellerTagsAppend(tags: seq<Tag>, t: Tag, sellerId: string)
    ensures |SellerTags(tags + [t], sellerId)| == |SellerTags(tags, sellerId)| + if t.sellerId == sellerId then 1 else 0
  {
    Seqs.FilterAppend(tags, [t], OwnedBy(sellerId));
  }

  /** Ids are fresh, names unique per seller, and no seller over the limit. */
  ghost predicate StoreValid(tags: seq<Tag>, nextId: nat)
  {
    && UniqueTags(tags)
    && (forall i :: 0 <= i < |tags| ==> tags[i].id < nextId)
    && WithinLimit(tags)
  }

  ghost predicate WithinLimit(tags: seq<Tag>)
  {
    forall s :: |SellerTags(tags, s)| <= MAX_TAGS_PER_SELLER
  }

  /** Removing tags never pushes a seller over the limit. */
  lemma {:induction false} FilterKeepsLimit(tags: seq<Tag>, keep: Tag -> bool)
    requires WithinLimit(tags)
    ensures WithinLimit(Seqs.Filter(tags, keep))
  {
    var kept := Seqs.Filter(tags, keep);
    forall s ensures |SellerTags(kept, s)| <= MAX_TAGS_PER_SELLER {
      FilterShrinksSelection(tags, keep, OwnedBy(s));
      assert |SellerTags(tags, s)| <= MAX_TAGS_PER_SELLER;
    }
  }

  /** Deleting keeps the store invariant. */
  lemma {:induction false} DeleteKeepsValid(tags: seq<Tag>, keep: Tag -> bool, nextId: nat)
    requires StoreValid(tags, nextId)
    ensures StoreValid(Seqs.Filter(tags, keep), nextId)
  {
    SubsequenceUnique(tags, keep);
    FilterKeepsFresh(tags, keep, nextId);
    FilterKeepsLimit(tags, keep);
  }

  class TagStore {
    var tags: seq<Tag>
    var nextId: nat

    ghost predicate Valid()
      reads this
    {
      StoreValid(tags, nextId)
    }

    constructor ()
      ensures Valid() && tags == []
    {
      tags := [];
      nextId := 0;
    }

    /** `findAll`: the seller's tags and no other, sorted by name. */
    method FindAll(sellerId: string) returns (r: seq<Tag>)
      ensures SortedByName(r)
      ensures multiset(r) == multiset(SellerTags(tags, sellerId))
      ensures forall t :: t in r <==> t in tags && t.sellerId == sellerId
    {
      r := SortByName(SellerTags(tags, sellerId));
      forall t ensures t in r <==> t in tags && t.sellerId == sellerId {
        FindAllSelects(tags, sellerId, t);
      }
    }

    /** `create`: refused at thirty tags for the seller; otherwise a tag with
        the trimmed name and the colour (default 'emerald') is stored, unless
        a required field is empty or the seller already has that name. */
    method Create(name: string, sellerId: string, color: Option<string>) returns (r: Result<Tag, TagError>)
      requires Valid()
      modifies this
      ensures Valid()
      ensures r == Err(LimitReached) <==> |SellerTags(old(tags), sellerId)| >= MAX_TAGS_PER_SELLER
      ensures r.Err? ==> tags == old(tags)
      ensures |SellerTags(old(tags), sellerId)| < MAX_TAGS_PER_SELLER ==>
        && (Text.Trim(name) == "" || sellerId == "" ==> r == Err(ValidationFailed))
        && (Text.Trim(name) != "" && sellerId != "" && HasName(old(tags), sellerId, Text.Trim(name)) ==> r == Err(AlreadyExists))
        && (Text.Trim(name) != "" && sellerId != "" && !HasName(old(tags), sellerId, Text.Trim(name)) ==>
              r == Ok(Tag(old(nextId), Text.Trim(name), sellerId, ColorOrDefault(color)))
              && tags == old(tags) + [r.value])
    {
      var count := |SellerTags(tags, sellerId)|;
      if count >= MAX_TAGS_PER_SELLER {
        return Err(LimitReached);
      }
      var trimmed := Text.Trim(name);
      if trimmed == "" || sellerId == "" {
        return Err(ValidationFailed);
      }
      if HasName(tags, sellerId, trimmed) {
        return Err(AlreadyExists);
      }
      var tag := Tag(nextId, trimmed, sellerId, ColorOrDefault(color));
      CreateKeepsValid(tags, nextId, tag);
      tags := tags + [tag];
      nextId := nextId + 1;
      r := Ok(tag);
    }

    /** `delete`: removes the tag only when both the id and the seller match;
        otherwise nothing changes. Other sellers' tags are never touched. */
    method Delete(id: nat, sellerId: string)
      requires Valid()
      modifies this
      ensures Valid()
      ensures tags == Seqs.Filter(old(tags), NotTheTag(id, sellerId))
      ensures forall other :: other != sellerId ==> SellerTags(tags, other) == SellerTags(old(tags), other)
    {
      var before := tags;
      tags := Seqs.Filter(tags, NotTheTag(id, sellerId));
      forall other | other != sellerId ensures SellerTags(tags, other) == SellerTags(before, other) {
        DeleteKeepsOtherSellers(before, id, sellerId, other);
      }
      DeleteKeepsValid(before, NotTheTag(id, sellerId), nextId);
    }
  }

  /** Appending a fresh tag whose seller is below the limit and lacks the name
      keeps the store invariant. */
  lemma {:induction false} CreateKeepsValid(tags: seq<Tag>, nextId: nat, tag: Tag)
    requires StoreValid(tags, nextId)
    requires tag.id == nextId && |SellerTags(tags, tag.sellerId)| < MAX_TAGS_PER_SELLER
    requires !HasName(tags, tag.sellerId, tag.name)
    ensures StoreValid(tags + [tag], nextId + 1)
  {
    forall s ensures |SellerTags(tags + [tag], s)| <= MAX_TAGS_PER_SELLER {
      SellerTagsAppend(tags, tag, s);
    }
    var after := tags + [tag];
    forall i, j | 0 <= i < j < |after|
      ensures after[i].id != after[j].id && (after[i].sellerId != after[j].sellerId || after[i].name != after[j].name)
    {
      if j == |tags| {
        assert after[i] == tags[i];
      }
    }
  }

  /** Removing tags keeps ids below the next fresh id. */
  lemma {:induction false} FilterKeepsFresh(tags: seq<Tag>, keep: Tag -> bool, nextId: nat)
    requires forall i :: 0 <= i < |tags| ==> tags[i].id < nextId
    ensures forall x :: x in Seqs.Filter(tags, keep) ==> x.id < nextId
  {
  }

  lemma {:induction false} SubsequenceUnique(tags: seq<Tag>, keep: Tag -> bool)
    requires UniqueTags(tags)
    ensures UniqueTags(Seqs.Filter(tags, keep))
  {
    if |tags| > 0 {
      SubsequenceUnique(tags[1..], keep);
      forall x | x in Seqs.Filter(tags[1..], keep)
        ensures x.id != tags[0].id && (x.sellerId != tags[0].sellerId || x.name != tags[0].name)
      {
        var j :| 0 <= j < |tags[1..]| && tags[1..][j] == x;
        assert tags[j + 1] == x;
      }
    }
  }

  lemma {:induction false} FilterShrinksSelection(tags: seq<Tag>, keep: Tag -> bool, select: Tag -> bool)
    ensures |Seqs.Filter(Seqs.Filter(tags, keep), select)| <= |Seqs.Filter(tags, select)|
  {
    if |tags| > 0 {
      FilterShrinksSelection(tags[1..], keep, select);
    }
  }
}
