/**
 * The delivery draft editor of the Deliveries screen: the modal form that
 * composes a new delivery or edits an existing one, its line-item list, and
 * the create-or-update choice made when the form is submitted.
 *
 * Every value a form control produces is a string; a value is "present" when
 * it is truthy in JavaScript, which for a string means non-empty.
 */
module Deliveries {
  import opened Wrappers

  /** One line item: the product picked in the select and the quantity typed
      into the number input, as the strings those controls yield. */
  datatype Item = Item(productId: string, quantity: string)

  /** The form held by the modal (`formData`). */
  datatype Form = Form(supplierId: string, date: string, deliveryItemList: seq<Item>)

  /** A delivery as the backend lists it; its item list may be missing. */
  datatype Delivery = Delivery(id: int, supplierId: string, date: string, deliveryItemList: Option<seq<Item>>)

  /** The request a submit sends: a POST of the form, or a PUT of the form to one id. */
  datatype Request = Create(body: Form) | Update(id: int, body: Form)

  const EmptyItem := Item("", "")
  const EmptyForm := Form("", "", [])

  /** JavaScript truthiness of a string: only the empty string is falsy. */
  predicate Present(s: string) {
    s != ""
  }

  /** The guard of `addDeliveryItem`: both fields truthy. No numeric check:
      "0" and "-3" pass. */
  predicate Addable(item: Item) {
    Present(item.productId) && Present(item.quantity)
  }

  /** `[...list, item]`: the item becomes the last entry, nothing is merged. */
  function Appended(list: seq<Item>, item: Item): (r: seq<Item>)
    ensures |r| == |list| + 1
    ensures r[..|list|] == list
    ensures r[|list|] == item
  {
    list + [item]
  }

  /** `list.filter((item, i) => i !== index)` where `list[0]` sits at position
      `offset` of the list being filtered. */
  function FilterOutPosition(list: seq<Item>, index: int, offset: nat): seq<Item>
    decreases |list|
  {
    if list == [] then []
    else (if offset != index then [list[0]] else []) + FilterOutPosition(list[1..], index, offset + 1)
  }

  /** Filtering by position removes exactly the element at `index` when it is
      in range, keeping the rest in order, and nothing otherwise. */
  lemma {:induction false} FilterOutPositionIsSplice(list: seq<Item>, index: int, offset: nat)
    ensures FilterOutPosition(list, index, offset)
         == if offset <= index < offset + |list|
            then list[..index - offset] + list[index - offset + 1..]
            else list
    decreases |list|
  {
    if list != [] {
      FilterOutPositionIsSplice(list[1..], index, offset + 1);
      var tail := list[1..];
      if offset == index {
        assert list[..0] + list[1..] == tail;
      } else if offset < index < offset + |list| {
        var k := index - offset;
        assert tail[..k - 1] + tail[k..] == list[1..k] + list[k + 1..];
        assert [list[0]] + list[1..k] == list[..k];
      } else {
        assert [list[0]] + tail == list;
      }
    }
  }

  /** `removeDeliveryItem`'s list: an index in range removes exactly that
      element; any other index, negative or too large, is a silent no-op. */
  function RemovedAt(list: seq<Item>, index: int): (r: seq<Item>)
    ensures 0 <= index < |list| ==> r == list[..index] + list[index + 1..]
    ensures 0 <= index < |list| ==> |r| == |list| - 1
    ensures !(0 <= index < |list|) ==> r == list
  {
    FilterOutPositionIsSplice(list, index, 0);
    FilterOutPosition(list, index, 0)
  }

  /** How many entries of `list` name `productId`. */
  function CountOf(list: seq<Item>, productId: string): nat
    decreases |list|
  {
    if list == [] then 0
    else (if list[0].productId == productId then 1 else 0) + CountOf(list[1..], productId)
  }

  /** Adding never merges: the entries for the added product grow by exactly
      one, even when that product is already listed, and no other product's
      count changes. */
  lemma {:induction false} AppendNeverMerges(list: seq<Item>, item: Item, productId: string)
    ensures CountOf(Appended(list, item), productId)
         == CountOf(list, productId) + (if item.productId == productId then 1 else 0)
    decreases |list|
  {
    if list != [] {
      assert Appended(list, item)[1..] == Appended(list[1..], item);
      AppendNeverMerges(list[1..], item, productId);
    }
  }

  /** Removing the entry just added restores the list. */
  lemma RemoveUndoesAppend(list: seq<Item>, item: Item)
    ensures RemovedAt(Appended(list, item), |list|) == list
  {
  }

  /** The request `handleSubmit` sends: an update addressed to the edited
      delivery's id when one is being edited, a create otherwise; both carry
      the current form. */
  function SubmitRequest(editing: Option<Delivery>, form: Form): (r: Request)
    ensures r.body == form
    ensures r.Update? <==> editing.Some?
    ensures r.Update? ==> r.id == editing.value.id
  {
    match editing
    case Some(d) => Update(d.id, form)
    case None => Create(form)
  }

  /** The component state of the Deliveries screen that the modal works on. */
  class DeliveryEditor {
    var formData: Form
    var currentItem: Item
    var editingDelivery: Option<Delivery>
    var showModal: bool

    /** The initial state: empty form, empty item, not editing, modal hidden. */
    constructor ()
      ensures formData == EmptyForm && currentItem == EmptyItem
      ensures editingDelivery == None && !showModal
    {
      formData := EmptyForm;
      currentItem := EmptyItem;
      editingDelivery := None;
      showModal := false;
    }

    /** `handleOpenAddModal`: everything reset, the modal shown. */
    method OpenAddModal()
      modifies this
      ensures editingDelivery == None
      ensures formData == EmptyForm && currentItem == EmptyItem
      ensures showModal
    {
      editingDelivery := None;
      formData := EmptyForm;
      currentItem := EmptyItem;
      showModal := true;
    }

    /** `handleOpenEditModal`: supplier, date and items loaded verbatim (a
        missing list becomes empty), item cleared, delivery recorded, modal shown. */
    method OpenEditModal(delivery: Delivery)
      modifies this
      ensures editingDelivery == Some(delivery)
      ensures formData.supplierId == delivery.supplierId && formData.date == delivery.date
      ensures delivery.deliveryItemList.Some? ==> formData.deliveryItemList == delivery.deliveryItemList.value
      ensures delivery.deliveryItemList.None? ==> formData.deliveryItemList == []
      ensures currentItem == EmptyItem
      ensures showModal
    {
      editingDelivery := Some(delivery);
      formData := Form(delivery.supplierId, delivery.date, delivery.deliveryItemList.GetOr([]));
      currentItem := EmptyItem;
      showModal := true;
    }

    /** `handleCloseModal`: hides the modal and clears nothing. */
    method CloseModal()
      modifies this`showModal
      ensures !showModal
      ensures formData == old(formData) && currentItem == old(currentItem)
      ensures editingDelivery == old(editingDelivery)
    {
      showModal := false;
    }

    /** The supplier select: replaces the supplier only. */
    method SetSupplierId(value: string)
      modifies this`formData
      ensures formData.supplierId == value
      ensures formData.date == old(formData.date)
      ensures formData.deliveryItemList == old(formData.deliveryItemList)
    {
      formData := formData.(supplierId := value);
    }

    /** The date input: replaces the date only. */
    method SetDate(value: string)
      modifies this`formData
      ensures formData.date == value
      ensures formData.supplierId == old(formData.supplierId)
      ensures formData.deliveryItemList == old(formData.deliveryItemList)
    {
      formData := formData.(date := value);
    }

    /** The product select of the item being added: replaces its product only. */
    method SetProductId(value: string)
      modifies this`currentItem
      ensures currentItem == Item(value, old(currentItem.quantity))
    {
      currentItem := currentItem.(productId := value);
    }

    /** The quantity input of the item being added: replaces its quantity only. */
    method SetQuantity(value: string)
      modifies this`currentItem
      ensures currentItem == Item(old(currentItem.productId), value)
    {
      currentItem := currentItem.(quantity := value);
    }

    /** `addDeliveryItem`: when both fields of the current item are present it
        is appended as the last entry and the current item is cleared;
        otherwise nothing changes. Supplier and date are never touched. */
    method AddDeliveryItem()
      modifies this`formData, this`currentItem
      ensures formData.supplierId == old(formData.supplierId) && formData.date == old(formData.date)
      ensures Addable(old(currentItem)) ==>
                formData.deliveryItemList == Appended(old(formData.deliveryItemList), old(currentItem))
                && currentItem == EmptyItem
      ensures !Addable(old(currentItem)) ==>
                formData == old(formData) && currentItem == old(currentItem)
    {
      if Present(currentItem.productId) && Present(currentItem.quantity) {
        formData := formData.(deliveryItemList := Appended(formData.deliveryItemList, currentItem));
        currentItem := EmptyItem;
      }
    }

    /** `removeDeliveryItem`: drops the entry at `index` when there is one,
        otherwise leaves the list as it is. Supplier and date are never touched. */
    method RemoveDeliveryItem(index: int)
      modifies this`formData
      ensures formData.supplierId == old(formData.supplierId) && formData.date == old(formData.date)
      ensures formData.deliveryItemList == RemovedAt(old(formData.deliveryItemList), index)
    {
      formData := formData.(deliveryItemList := RemovedAt(formData.deliveryItemList, index));
    }

    /** `handleSubmit`: sends the create-or-update request for the current
        form; `succeeded` is the backend's answer. Only success closes the
        modal; the form, the current item and the editing marker are kept
        either way. */
    method Submit(succeeded: bool) returns (request: Request)
      modifies this`showModal
      ensures request.body == formData
      ensures request == SubmitRequest(editingDelivery, formData)
      ensures succeeded ==> !showModal
      ensures !succeeded ==> showModal == old(showModal)
    {
      request := SubmitRequest(editingDelivery, formData);
      if succeeded {
        CloseModal();
      }
    }
  }

  /** A user picks the same product twice with truthy fields: two separate
      entries result, in order, and the current item is cleared. */
  method AddSameProductTwice(productId: string, q1: string, q2: string) returns (list: seq<Item>)
    requires Present(productId) && Present(q1) && Present(q2)
    ensures list == [Item(productId, q1), Item(productId, q2)]
  {
    var editor := new DeliveryEditor();
    editor.OpenAddModal();
    editor.SetProductId(productId);
    editor.SetQuantity(q1);
    editor.AddDeliveryItem();
    editor.SetProductId(productId);
    editor.SetQuantity(q2);
    editor.AddDeliveryItem();
    list := editor.formData.deliveryItemList;
  }

  /** Opening a delivery for edit and saving it unchanged sends an update to
      that delivery's id carrying its supplier, date and items. */
  method EditAndSave(delivery: Delivery, succeeded: bool) returns (request: Request)
    ensures request == Update(delivery.id, Form(delivery.supplierId, delivery.date, delivery.deliveryItemList.GetOr([])))
  {
    var editor := new DeliveryEditor();
    editor.OpenEditModal(delivery);
    request := editor.Submit(succeeded);
  }
}
