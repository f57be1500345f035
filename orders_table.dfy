/**
 The admin table of shop orders `OrdersTable`: the fixed status options, the
 status badge colour, the option labels, the shortened order id, the product
 name with its fallback, the optional contact lines and the empty state. The
 total is rendered with `toFixed(2)` and the date with locale formatting;
 neither is modelled.
 */
module OrdersTable {
  import opened Backend
  import Text

  /** The product joined to an order, as far as the table reads it. */
  datatype ProductRef = ProductRef(name: string)

  /** An `orders` row, restricted to the fields the table shows. */
  datatype Order = Order(
    id: string,
    customerName: string,
    customerEmail: string,
    customerPhone: Option<string>,
    product: Option<ProductRef>,
    quantity: int,
    status: string,
    notes: Option<string>)

  const StatusOptions: seq<string> := ["pending", "processing", "completed", "cancelled"]

  const Green: string := "bg-green-100 text-green-800"
  const Yellow: string := "bg-yellow-100 text-yellow-800"
  const Red: string := "bg-red-100 text-red-800"
  const Gray: string := "bg-gray-100 text-gray-800"

  const UnknownProduct: string := "Unknown Product"

  /** `getStatusColor`: three known statuses have their own badge colour;
      every other string, `pending` included, is gray. */
  function StatusColor(status: string): (c: string)
    ensures status == "completed" ==> c == Green
    ensures status == "processing" ==> c == Yellow
    ensures status == "cancelled" ==> c == Red
    ensures c == Gray <==> status != "completed" && status != "processing" && status != "cancelled"
  {
    match status
    case "completed" => Green
    case "processing" => Yellow
    case "cancelled" => Red
    case _ => Gray
  }

  /** Every status option has a different badge colour. */
  lemma OptionColoursDistinct()
    ensures forall i, j :: 0 <= i < j < |StatusOptions| ==>
              StatusColor(StatusOptions[i]) != StatusColor(StatusOptions[j])
  {
  }

  /** An option's label: the status with its first character upper-cased and
      the rest unchanged. */
  function OptionLabel(status: string): (text: string)
    ensures |text| == |status|
    ensures |status| > 0 ==> text[0] == Text.ToUpper(status[0]) && text[1..] == status[1..]
  {
    Text.Capitalize(status)
  }

  /** An `<option>`: its value and its label. */
  datatype SelectOption = SelectOption(value: string, caption: string)

  /** The dropdown's options, in the order of `statuses`. */
  function Options(statuses: seq<string>): (opts: seq<SelectOption>)
    ensures |opts| == |statuses|
    ensures forall i :: 0 <= i < |statuses| ==> opts[i] == SelectOption(statuses[i], OptionLabel(statuses[i]))
  {
    if statuses == [] then [] else [SelectOption(statuses[0], OptionLabel(statuses[0]))] + Options(statuses[1..])
  }

  /** A label of a status whose first letter is a lower-case ASCII letter. */
  lemma {:induction false} LabelOfLowerCase(status: string, first: char)
    requires |status| > 0 && status[0] == first && 'a' <= first <= 'z'
    ensures OptionLabel(status) == [(first as int - 32) as char] + status[1..]
  {
    var t := OptionLabel(status);
    assert t[1..] == status[1..];
  }

  lemma PendingLabel(s: string)
    requires s == "pending"
    ensures OptionLabel(s) == "Pending"
  {
    LabelOfLowerCase(s, 'p');
    assert s[1..] == "ending";
  }

  lemma ProcessingLabel(s: string)
    requires s == "processing"
    ensures OptionLabel(s) == "Processing"
  {
    LabelOfLowerCase(s, 'p');
    assert s[1..] == "rocessing";
  }

  lemma CompletedLabel(s: string)
    requires s == "completed"
    ensures OptionLabel(s) == "Completed"
  {
    LabelOfLowerCase(s, 'c');
    assert s[1..] == "ompleted";
  }

  lemma CancelledLabel(s: string)
    requires s == "cancelled"
    ensures OptionLabel(s) == "Cancelled"
  {
    LabelOfLowerCase(s, 'c');
    assert s[1..] == "ancelled";
  }

  /** The dropdown offers exactly the four statuses, in order, labelled
      `Pending`, `Processing`, `Completed` and `Cancelled`. */
  lemma {:induction false} OptionLabels()
    ensures Options(StatusOptions) == [
      SelectOption("pending", "Pending"),
      SelectOption("processing", "Processing"),
      SelectOption("completed", "Completed"),
      SelectOption("cancelled", "Cancelled")]
  {
    PendingLabel("pending");
    ProcessingLabel("processing");
    CompletedLabel("completed");
    CancelledLabel("cancelled");
    OptionsOfFour("pending", "processing", "completed", "cancelled");
  }

  lemma {:induction false} OptionsOfFour(a: string, b: string, c: string, d: string)
    ensures Options([a, b, c, d]) == [
      SelectOption(a, OptionLabel(a)), SelectOption(b, OptionLabel(b)),
      SelectOption(c, OptionLabel(c)), SelectOption(d, OptionLabel(d))]
  {
    var o := Options([a, b, c, d]);
    assert |o| == 4;
  }

  /** `order.product?.name || 'Unknown Product'`: the joined product's name,
      unless there is no product or its name is empty. */
  function ProductName(product: Option<ProductRef>): (name: string)
    ensures product.Some? && product.value.name != "" ==> name == product.value.name
    ensures product.None? || product.value.name == "" ==> name == UnknownProduct
  {
    if product.Some? then OrElse(product.value.name, UnknownProduct) else UnknownProduct
  }

  /** One table row as displayed. `orderId` is the id the status dropdown
      hands to `onStatusUpdate`. */
  datatype Row = Row(
    orderId: string,
    idText: string,
    customerName: string,
    customerEmail: string,
    productName: string,
    quantity: int,
    status: string,
    color: string,
    phoneLine: Option<string>,
    noteLine: Option<string>)

  /** A row shows the shortened id but reports status changes under the full
      id, with the product fallback and the colour of the order's status. */
  function RowOf(order: Order): (row: Row)
    ensures row.orderId == order.id && row.idText == Text.TruncatedId(order.id)
    ensures row.productName == ProductName(order.product)
    ensures row.status == order.status && row.color == StatusColor(order.status)
    ensures row.phoneLine == Shown(order.customerPhone) && row.noteLine == Shown(order.notes)
  {
    Row(order.id, Text.TruncatedId(order.id), order.customerName, order.customerEmail,
        ProductName(order.product), order.quantity, order.status, StatusColor(order.status),
        Shown(order.customerPhone), Shown(order.notes))
  }

  /** Two orders whose ids share their first 8 characters show the same
      shortened id, yet their rows still report changes under different ids. */
  lemma {:induction false} ShortIdsMayCoincide(a: Order, b: Order)
    requires |a.id| >= 8 && |b.id| >= 8 && a.id[..8] == b.id[..8] && a.id != b.id
    ensures RowOf(a).idText == RowOf(b).idText
    ensures RowOf(a).orderId != RowOf(b).orderId
  {
    var ta, tb := RowOf(a).idText, RowOf(b).idText;
    assert ta == a.id[..8] + "..." && tb == b.id[..8] + "...";
  }

  /** What the component renders: the empty state, or one row per order, each
      with the same status dropdown `options`. */
  datatype Table = EmptyState | Rows(options: seq<SelectOption>, rows: seq<Row>)

  function RowsOf(orders: seq<Order>): (rows: seq<Row>)
    ensures |rows| == |orders|
    ensures forall i :: 0 <= i < |orders| ==> rows[i] == RowOf(orders[i])
  {
    if orders == [] then []
    else
      var rest := RowsOf(orders[1..]);
      assert forall i :: 1 <= i < |orders| ==> orders[i] == orders[1..][i - 1];
      [RowOf(orders[0])] + rest
  }

  function Render(orders: seq<Order>): (t: Table)
    ensures t.EmptyState? <==> orders == []
    ensures t.Rows? ==> t.options == Options(StatusOptions) && |t.rows| == |orders| &&
                        forall i :: 0 <= i < |orders| ==> t.rows[i] == RowOf(orders[i])
  {
    if |orders| == 0 then EmptyState else Rows(Options(StatusOptions), RowsOf(orders))
  }
}
