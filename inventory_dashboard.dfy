/** The seller's inventory dashboard: the form's tag picker (at most five
    tags), the submit routing between the server and the offline queue, the
    bulk tag assignment, and the combined product list. */
module Dashboard {
  import opened Wrappers
  import opened Inventory
  import Seqs

  /** The most tags a product may carry. */
  const MAX_TAGS: nat := 5

  function TagName(t: string): string
  {
    t
  }

  /** The keep-predicate of `tags.filter(t => t !== tag)`. */
  function IsNot(tag: string): string -> bool
  {
    t => t != tag
  }

  predicate NoDuplicates(tags: seq<string>)
  {
    Seqs.UniqueKeys(tags, TagName)
  }

  /** `handleTagToggle`: a present tag is removed; an absent one is appended
      only while there are fewer than five; otherwise the list is unchanged. */
  function TagToggle(tags: seq<string>, tag: string): (r: seq<string>)
    ensures tag in r <==> tag !in tags && |tags| < MAX_TAGS
    ensures forall t :: t != tag ==> (t in r <==> t in tags)
    ensures tag !in tags && |tags| < MAX_TAGS ==> |r| == |tags| + 1 && r[..|tags|] == tags
  {
    if tag in tags then Seqs.Filter(tags, IsNot(tag))
    else if |tags| >= MAX_TAGS then tags
    else tags + [tag]
  }

  /** Starting from the empty form, toggling keeps the tags free of duplicates
      and at most five. */
  lemma TagToggleKeepsFormValid(tags: seq<string>, tag: string)
    requires NoDuplicates(tags) && |tags| <= MAX_TAGS
    ensures NoDuplicates(TagToggle(tags, tag)) && |TagToggle(tags, tag)| <= MAX_TAGS
  {
    if tag in tags {
      Seqs.FilterKeepsUnique(tags, TagName, IsNot(tag));
    } else if |tags| < MAX_TAGS {
      var r := tags + [tag];
      forall i, j | 0 <= i < j < |r| ensures TagName(r[i]) != TagName(r[j]) {
        if j == |tags| {
          assert r[i] in tags;
        } else {
          assert TagName(tags[i]) != TagName(tags[j]);
        }
      }
    }
  }

  /** Toggling an absent tag twice gives back the original list. */
  lemma {:induction false} ToggleTwiceRestores(tags: seq<string>, tag: string)
    requires tag !in tags && |tags| < MAX_TAGS
    ensures TagToggle(TagToggle(tags, tag), tag) == tags
  {
    Seqs.FilterAppend(tags, [tag], IsNot(tag));
    assert Seqs.Filter([tag], IsNot(tag)) == [];
    assert forall t :: t in tags ==> IsNot(tag)(t);
  }

  /** The form's state. */
  datatype ProductForm = ProductForm(
    name: string,
    description: string,
    price: real,
    sku: string,
    stock: int,
    vertical: string,
    tags: seq<string>,
    imageUrl: string,
    attributes: map<string, string>)

  /** What `resetForm` sets. */
  const EMPTY_FORM := ProductForm("", "", 0.0, "", 0, "", [], "", map[])

  /** `tags[0] || 'other'`: the first tag unless there is none or it is empty. */
  function Vertical(tags: seq<string>): (v: string)
    ensures v != ""
    ensures |tags| > 0 && tags[0] != "" ==> v == tags[0]
  {
    if |tags| > 0 && tags[0] != "" then tags[0] else "other"
  }

  /** The product request built from the form: every form field (the spread
      of `formData`, attributes included), the seller, and the vertical taken
      from the first tag in place of the form's own. */
  function ProductData(form: ProductForm, sellerId: Option<string>): (r: ProductDraft)
    ensures r.tags == form.tags && r.sellerId == sellerId && r.vertical == Vertical(form.tags)
    ensures r.name == form.name && r.description == form.description && r.sku == form.sku
    ensures r.price == form.price && r.stock == form.stock
    ensures r.imageUrl == form.imageUrl && r.attributes == form.attributes
  {
    ProductDraft(form.name, form.description, form.price, form.sku, form.stock,
      Vertical(form.tags), sellerId, form.tags, form.imageUrl, form.attributes)
  }

  datatype SubmitResult = NegativeRejected | Queued | Created(request: ProductDraft) | CreateFailed(request: ProductDraft)

  /** `handleBulkTagAssign` for one product: the selected tags the product
      lacks, cut to the free slots below five; `None` when nothing is added. */
  function BulkTagsFor(current: seq<string>, selected: seq<string>): (r: Option<seq<string>>)
    ensures var toAdd := Seqs.Filter(selected, (t: string) => t !in current);
      && (r.None? <==> |toAdd| == 0 || |current| >= MAX_TAGS)
      && (r.Some? ==>
            && |current| < |r.value| <= MAX_TAGS
            && |r.value| <= |current| + |toAdd|
            && r.value[..|current|] == current
            && r.value[|current|..] == toAdd[..|r.value| - |current|]
            && (|r.value| == MAX_TAGS || |r.value| == |current| + |toAdd|))
  {
    var toAdd := Seqs.Filter(selected, (t: string) => t !in current);
    if |toAdd| == 0 then None
    else if |current| + |toAdd| > MAX_TAGS then
      var slots := MAX_TAGS as int - |current|;
      if slots <= 0 then None
      else Some(current + toAdd[..slots])
    else Some(current + toAdd)
  }

  /** The tags a bulk assignment adds are selected ones the product did not have. */
  lemma BulkAddsOnlyNewTags(current: seq<string>, selected: seq<string>)
    requires BulkTagsFor(current, selected).Some?
    ensures var r := BulkTagsFor(current, selected).value;
      forall t :: t in r[|current|..] ==> t in selected && t !in current
  {
    var toAdd := Seqs.Filter(selected, (t: string) => t !in current);
    var r := BulkTagsFor(current, selected).value;
    forall t | t in r[|current|..] ensures t in selected && t !in current {
      assert t in toAdd;
    }
  }

  /** A server product as the bulk assignment sees it. */
  datatype ServerProduct = ServerProduct(id: string, name: string, tags: seq<string>)

  /** The update sent for one product. */
  datatype TagUpdate = TagUpdate(id: string, tags: seq<string>, vertical: string)

  /** `serverProducts.find(p => p.id === id)?.tags || []`. */
  function CurrentTags(products: seq<ServerProduct>, id: string): seq<string>
  {
    if |products| == 0 then []
    else if products[0].id == id then products[0].tags
    else CurrentTags(products[1..], id)
  }

  /** The updates of `handleBulkTagAssign`, one per selected product that gains
      a tag, in selection order. */
  function BulkUpdates(selectedIds: seq<string>, products: seq<ServerProduct>, selectedTags: seq<string>): (r: seq<TagUpdate>)
    ensures |r| <= |selectedIds|
    ensures |selectedTags| == 0 ==> r == []
    ensures forall u :: u in r ==>
      && u.id in selectedIds
      && BulkTagsFor(CurrentTags(products, u.id), selectedTags) == Some(u.tags)
      && u.vertical == Vertical(u.tags)
    ensures |selectedTags| > 0 ==> forall id :: id in selectedIds && BulkTagsFor(CurrentTags(products, id), selectedTags).Some? ==>
      exists u :: u in r && u.id == id
  {
    if |selectedIds| == 0 || |selectedTags| == 0 then []
    else
      var id := selectedIds[0];
      var rest := BulkUpdates(selectedIds[1..], products, selectedTags);
      match BulkTagsFor(CurrentTags(products, id), selectedTags)
      case None => rest
      case Some(tags) => [TagUpdate(id, tags, Vertical(tags))] + rest
  }

  /** The product ids of a list of updates, in order. */
  function UpdateIds(updates: seq<TagUpdate>): (ids: seq<string>)
    ensures |ids| == |updates| && forall i :: 0 <= i < |updates| ==> ids[i] == updates[i].id
  {
    seq(|updates|, i requires 0 <= i < |updates| => updates[i].id)
  }

  lemma UpdateIdsPrepend(head: seq<TagUpdate>, rest: seq<TagUpdate>)
    requires |head| == 1
    ensures UpdateIds(head + rest) == [head[0].id] + UpdateIds(rest)
  {
    assert forall i :: 0 <= i < |rest| ==> (head + rest)[i + 1] == rest[i];
  }

  /** Whether the bulk assignment adds a tag to product `id`. */
  function GainsTag(products: seq<ServerProduct>, selectedTags: seq<string>): string -> bool
  {
    id => BulkTagsFor(CurrentTags(products, id), selectedTags).Some?
  }

  /** The updates follow the selection: exactly the selected products that
      gain a tag, in the order they were selected. */
  lemma {:induction false} BulkUpdatesInSelectionOrder(selectedIds: seq<string>, products: seq<ServerProduct>, selectedTags: seq<string>)
    requires |selectedTags| > 0
    ensures UpdateIds(BulkUpdates(selectedIds, products, selectedTags)) == Seqs.Filter(selectedIds, GainsTag(products, selectedTags))
  {
    if |selectedIds| > 0 {
      var gains := GainsTag(products, selectedTags);
      var id := selectedIds[0];
      var rest := BulkUpdates(selectedIds[1..], products, selectedTags);
      BulkUpdatesInSelectionOrder(selectedIds[1..], products, selectedTags);
      assert Seqs.Filter(selectedIds, gains)
          == if gains(id) then [id] + Seqs.Filter(selectedIds[1..], gains) else Seqs.Filter(selectedIds[1..], gains);
      match BulkTagsFor(CurrentTags(products, id), selectedTags)
      case None =>
        assert BulkUpdates(selectedIds, products, selectedTags) == rest;
      case Some(tags) =>
        var head := [TagUpdate(id, tags, Vertical(tags))];
        assert BulkUpdates(selectedIds, products, selectedTags) == head + rest;
        UpdateIdsPrepend(head, rest);
    }
  }

  /** How a product shows in the list. */
  datatype ListStatus = ErrorStatus(message: string) | PendingStatus | Synced

  datatype ListedProduct = ListedProduct(id: string, name: string, status: ListStatus)

  function Rank(s: ListStatus): nat
  {
    match s
    case ErrorStatus(_) => 0
    case PendingStatus => 1
    case Synced => 2
  }

  /** `allProducts`: rejected entries, then queued ones, then the server's,
      each group in its own order. */
  function AllProducts(errors: seq<ErrorProduct>, pending: seq<PendingProduct>, server: seq<ServerProduct>): (r: seq<ListedProduct>)
    ensures |r| == |errors| + |pending| + |server|
    ensures forall i, j :: 0 <= i < j < |r| ==> Rank(r[i].status) <= Rank(r[j].status)
    ensures forall i :: 0 <= i < |errors| ==> r[i].id == errors[i].entry.tempId && r[i].status == ErrorStatus(errors[i].error)
    ensures forall i :: 0 <= i < |pending| ==> r[|errors| + i].id == pending[i].tempId
    ensures forall i :: 0 <= i < |server| ==> r[|errors| + |pending| + i].id == server[i].id
  {
    seq(|errors|, i requires 0 <= i < |errors| =>
          ListedProduct(errors[i].entry.tempId, errors[i].entry.product.name, ErrorStatus(errors[i].error)))
    + seq(|pending|, i requires 0 <= i < |pending| =>
          ListedProduct(pending[i].tempId, pending[i].product.name, PendingStatus))
    + seq(|server|, i requires 0 <= i < |server| =>
          ListedProduct(server[i].id, server[i].name, Synced))
  }

  class InventoryDashboard {
    const queue: InventoryQueue
    var form: ProductForm
    var modalOpen: bool

    constructor (queue: InventoryQueue)
      ensures this.queue == queue && form == EMPTY_FORM && !modalOpen
    {
      this.queue := queue;
      form := EMPTY_FORM;
      modalOpen := false;
    }

    /** `handleTagToggle` on the form. */
    method HandleTagToggle(tag: string)
      modifies this
      ensures form == old(form).(tags := TagToggle(old(form).tags, tag)) && modalOpen == old(modalOpen)
    {
      form := form.(tags := TagToggle(form.tags, tag));
    }

    /** `handleAttributeChange`: one attribute (the fashion size or colour) is
        set to the input's value; the other attributes and fields are kept. */
    method HandleAttributeChange(name: string, value: string)
      modifies this
      ensures form == old(form).(attributes := old(form).attributes[name := value]) && modalOpen == old(modalOpen)
    {
      form := form.(attributes := form.attributes[name := value]);
    }

    /** `resetForm`. */
    method ResetForm()
      modifies this
      ensures form == EMPTY_FORM && modalOpen == old(modalOpen)
    {
      form := EMPTY_FORM;
    }

    /** `handleSubmit`: a negative price or stock is rejected before anything
        is sent or queued; offline, the request is queued and the form reset;
        online, it is sent, and only on success is the form reset and the
        dialog closed. */
    method HandleSubmit(sellerId: Option<string>, isOnline: bool, createSucceeded: bool,
                        now: int, randomSuffix: string, timestamp: int) returns (r: SubmitResult)
      modifies this, queue
      ensures old(form.price) < 0.0 || old(form.stock) < 0 ==>
        r == NegativeRejected && form == old(form) && modalOpen == old(modalOpen)
        && queue.pending == old(queue.pending) && queue.errors == old(queue.errors)
      ensures old(form.price) >= 0.0 && old(form.stock) >= 0 && !isOnline ==>
        && r == Queued && form == EMPTY_FORM && !modalOpen
        && queue.pending == old(queue.pending) + [PendingProduct(ProductData(old(form), sellerId), TempId(now, randomSuffix), timestamp)]
        && queue.errors == old(queue.errors)
      ensures old(form.price) >= 0.0 && old(form.stock) >= 0 && isOnline ==>
        && queue.pending == old(queue.pending) && queue.errors == old(queue.errors)
        && (createSucceeded ==> r == Created(ProductData(old(form), sellerId)) && form == EMPTY_FORM && !modalOpen)
        && (!createSucceeded ==> r == CreateFailed(ProductData(old(form), sellerId)) && form == old(form) && modalOpen == old(modalOpen))
    {
      if form.price < 0.0 || form.stock < 0 {
        return NegativeRejected;
      }
      var productData := ProductData(form, sellerId);
      if !isOnline {
        queue.AddPendingProduct(productData, now, randomSuffix, timestamp);
        modalOpen := false;
        form := EMPTY_FORM;
        return Queued;
      }
      if createSucceeded {
        modalOpen := false;
        form := EMPTY_FORM;
        r := Created(productData);
      } else {
        r := CreateFailed(productData);
      }
    }
  }
}
