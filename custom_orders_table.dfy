/**
 The admin table of custom-order requests `CustomOrdersTable`: the fixed
 status options, the status badge colour, the option labels, the shortened
 order id, the thumbnail preview and the empty state. Budgets and dates are
 rendered with locale and floating-point formatting and are not modelled.
 */
module CustomOrdersTable {
  import opened Backend
  import Text

  /** A `custom_orders` row, restricted to the fields the table shows. */
  datatype CustomOrder = CustomOrder(
    id: string,
    customerName: string,
    customerEmail: string,
    customerPhone: Option<string>,
    description: string,
    notes: Option<string>,
    status: string,
    images: Option<seq<string>>)

  const StatusOptions: seq<string> := ["pending", "in_progress", "completed", "cancelled"]

  const Green: string := "bg-green-100 text-green-800"
  const Blue: string := "bg-blue-100 text-blue-800"
  const Red: string := "bg-red-100 text-red-800"
  const Gray: string := "bg-gray-100 text-gray-800"

  /** `getStatusColor`: three known statuses have their own badge colour;
      every other string, `pending` included, is gray. */
  function StatusColor(status: string): (c: string)
    ensures status == "completed" ==> c == Green
    ensures status == "in_progress" ==> c == Blue
    ensures status == "cancelled" ==> c == Red
    ensures c == Gray <==> status != "completed" && status != "in_progress" && status != "cancelled"
  {
    match status
    case "completed" => Green
    case "in_progress" => Blue
    case "cancelled" => Red
    case _ => Gray
  }

  /** Every status option has a different badge colour. */
  lemma OptionColoursDistinct()
    ensures forall i, j :: 0 <= i < j < |StatusOptions| ==>
              StatusColor(StatusOptions[i]) != StatusColor(StatusOptions[j])
  {
  }

  /** An option's label: the first `_` becomes a space, then the first
      character is upper-cased. */
  function OptionLabel(status: string): (text: string)
    ensures |text| == |status|
    ensures '_' !in status ==> text == Text.Capitalize(status)
    ensures '_' in status ==>
              var k := Text.IndexOf(status, '_');
              text == Text.Capitalize(status[..k] + " " + status[k + 1..])
  {
    Text.Capitalize(Text.ReplaceFirst(status, '_', ' '))
  }

  /** An `<option>`: its value and its label. */
  datatype SelectOption = SelectOption(value: string, caption: string)

  /** The dropdown's options, in the order of `statuses`. */
  function Options(statuses: seq<string>): (opts: seq<SelectOption>)
    ensures |opts| == |statuses|
    ensures forall i :: 0 <= i < |statuses| ==> opts[i] == SelectOption(statuses[i], OptionLabel(statuses[i]))
  {
    if statuses == [] then [] else [SelectOption(statuses[0], OptionLabel(statuses[0]))] + Options(statuses[1..])
  }

  lemma PendingLabel(s: string)
    requires s == "pending"
    ensures OptionLabel(s) == "Pending"
  {
    assert '_' !in s;
    assert Text.Capitalize(s) == "Pending";
  }

  /** A status whose first underscore follows the word `a`: the label is the
      status with that underscore turned into a space, capitalised. */
  lemma {:induction false} LabelOfSnakeCase(a: string, b: string)
    requires '_' !in a
    ensures OptionLabel(a + "_" + b) == Text.Capitalize(a + " " + b)
  {
    var s := a + "_" + b;
    assert s[..|a|] == a;
    assert s[|a| + 1..] == b;
    Text.IndexOfAt(s, '_', |a|);
  }

  lemma InProgressLabel(s: string)
    requires s == "in_progress"
    ensures OptionLabel(s) == "In progress"
  {
    InProgressSplits(s);
    InProgressSpaced(s);
    InProgressCapitalized(s[..2] + " " + s[3..]);
  }

  /** `in_progress` is the word `in`, an underscore, then `progress`. */
  lemma {:induction false} InProgressSplits(s: string)
    requires s == "in_progress"
    ensures OptionLabel(s) == Text.Capitalize(s[..2] + " " + s[3..])
  {
    var word, rest := s[..2], s[3..];
    assert '_' !in word && s == word + "_" + rest;
    LabelOfSnakeCase(word, rest);
  }

  lemma InProgressSpaced(s: string)
    requires s == "in_progress"
    ensures s[..2] + " " + s[3..] == "in progress"
  {
  }

  lemma InProgressCapitalized(t: string)
    requires t == "in progress"
    ensures Text.Capitalize(t) == "In progress"
  {
  }

  lemma CompletedLabel(s: string)
    requires s == "completed"
    ensures OptionLabel(s) == "Completed"
  {
    assert '_' !in s;
    assert Text.Capitalize(s) == "Completed";
  }

  lemma CancelledLabel(s: string)
    requires s == "cancelled"
    ensures OptionLabel(s) == "Cancelled"
  {
    assert '_' !in s;
    assert Text.Capitalize(s) == "Cancelled";
  }

  /** The dropdown offers exactly the four statuses, in order, labelled
      `Pending`, `In progress`, `Completed` and `Cancelled`. */
  lemma {:induction false} OptionLabels()
    ensures Options(StatusOptions) == [
      SelectOption("pending", "Pending"),
      SelectOption("in_progress", "In progress"),
      SelectOption("completed", "Completed"),
      SelectOption("cancelled", "Cancelled")]
  {
    PendingLabel("pending");
    InProgressLabel("in_progress");
    CompletedLabel("completed");
    CancelledLabel("cancelled");
    OptionsOfFour("pending", "in_progress", "completed", "cancelled");
  }

  lemma {:induction false} OptionsOfFour(a: string, b: string, c: string, d: string)
    ensures Options([a, b, c, d]) == [
      SelectOption(a, OptionLabel(a)), SelectOption(b, OptionLabel(b)),
      SelectOption(c, OptionLabel(c)), SelectOption(d, OptionLabel(d))]
  {
    var o := Options([a, b, c, d]);
    assert |o| == 4;
  }

  /** The images cell: no thumbnails for null or empty images, otherwise the
      first (at most) two and a `+k` badge counting the rest. */
  datatype Preview = NoImages | Thumbnails(shown: seq<string>, more: Option<nat>)

  function ImagePreview(images: Option<seq<string>>): (p: Preview)
    ensures p.NoImages? <==> images.None? || images.value == []
    ensures p.Thumbnails? ==>
              var n := |images.value|;
              && |p.shown| == (if n < 2 then n else 2)
              && p.shown == images.value[..|p.shown|]
              && (p.more.Some? <==> n > 2)
              && (p.more.Some? ==> p.more.value == n - 2)
  {
    if images.Some? && |images.value| > 0 then
      var n := |images.value|;
      Thumbnails(Text.Prefix(images.value, 2), if n > 2 then Some(n - 2) else None)
    else NoImages
  }

  /** The thumbnails and the badge together account for every image. */
  lemma PreviewCountsEveryImage(images: seq<string>)
    requires images != []
    ensures var p := ImagePreview(Some(images));
            |p.shown| + (if p.more.Some? then p.more.value else 0) == |images|
  {
  }

  /** One table row as displayed. `orderId` is the id the status dropdown
      hands to `onStatusUpdate` and the delete button to `onDelete`. */
  datatype Row = Row(
    orderId: string,
    idText: string,
    customerName: string,
    customerEmail: string,
    phoneLine: Option<string>,
    description: string,
    noteLine: Option<string>,
    status: string,
    color: string,
    preview: Preview)

  /** A row shows the shortened id but reports status changes and deletion
      under the full id, with the colour of the order's status and the image
      preview. */
  function RowOf(order: CustomOrder): (row: Row)
    ensures row.orderId == order.id && row.idText == Text.TruncatedId(order.id)
    ensures row.status == order.status && row.color == StatusColor(order.status)
    ensures row.preview == ImagePreview(order.images)
    ensures row.phoneLine == Shown(order.customerPhone) && row.noteLine == Shown(order.notes)
  {
    Row(order.id, Text.TruncatedId(order.id), order.customerName, order.customerEmail, Shown(order.customerPhone),
        order.description, Shown(order.notes), order.status, StatusColor(order.status),
        ImagePreview(order.images))
  }

  /** Two orders whose ids share their first 8 characters show the same
      shortened id, yet their rows still report changes under different ids. */
  lemma {:induction false} ShortIdsMayCoincide(a: CustomOrder, b: CustomOrder)
    requires |a.id| >= 8 && |b.id| >= 8 && a.id[..8] == b.id[..8] && a.id != b.id
    ensures RowOf(a).idText == RowOf(b).idText
    ensures RowOf(a).orderId != RowOf(b).orderId
  {
    var ta, tb := RowOf(a).idText, RowOf(b).idText;
    assert ta == a.id[..8] + "..." && tb == b.id[..8] + "...";
  }

  /** What the component renders: the empty state, or one row per order, each
      with the same status dropdown `options`. */
  datatype Table = EmptyState | Rows(options: seq<SelectOption>, rows: seq<Row>)

  function RowsOf(orders: seq<CustomOrder>): (rows: seq<Row>)
    ensures |rows| == |orders|
    ensures forall i :: 0 <= i < |orders| ==> rows[i] == RowOf(orders[i])
  {
    if orders == [] then []
    else
      var rest := RowsOf(orders[1..]);
      assert forall i :: 1 <= i < |orders| ==> orders[i] == orders[1..][i - 1];
      [RowOf(orders[0])] + rest
  }

  function Render(orders: seq<CustomOrder>): (t: Table)
    ensures t.EmptyState? <==> orders == []
    ensures t.Rows? ==> t.options == Options(StatusOptions) && |t.rows| == |orders| &&
                        forall i :: 0 <= i < |orders| ==> t.rows[i] == RowOf(orders[i])
  {
    if |orders| == 0 then EmptyState else Rows(Options(StatusOptions), RowsOf(orders))
  }
}
