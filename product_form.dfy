/**
 The admin product editor `ProductForm`. The pure part: loading a product
 into the form, building the row to save (`productData`), and the list
 expressions that append and remove images. The stateful part: the form
 state, the image-URL input and `loading`, changed by the load effect and
 the handlers. The price travels as the text rendered by `toString` and read
 back by `parseFloat`; neither conversion is modelled.
 */
module ProductForm {
  import opened Backend
  import Text

  /** A `products` row (`Product` in the source's types). */
  datatype Product = Product(
    id: string,
    createdAt: string,
    name: string,
    description: Option<string>,
    price: string,
    images: Option<seq<string>>,
    material: Option<string>)

  /** The form state `formData`. */
  datatype FormData = FormData(name: string, description: string, price: string, material: string, images: seq<string>)

  /** The row handed to `update` or `insert` (`productData`). */
  datatype ProductData = ProductData(
    name: string,
    description: Option<string>,
    price: string,
    material: Option<string>,
    images: Option<seq<string>>)

  /** The store call `handleSubmit` makes. */
  datatype Write = Update(id: string, data: ProductData) | Insert(data: ProductData)

  const EmptyForm: FormData := FormData("", "", "", "", [])

  /** `x || ''` on a nullable string. */
  function OrEmpty(s: Option<string>): (r: string)
    ensures s.Some? ==> r == s.value
    ensures s.None? ==> r == ""
  {
    if s.Some? then s.value else ""
  }

  /** `x || null` on a form string: the empty string is stored as null. */
  function NullIfEmpty(s: string): (r: Option<string>)
    ensures r.None? <==> s == ""
    ensures r.Some? ==> r.value == s
  {
    if s != "" then Some(s) else None
  }

  /** The load effect's form for an existing product: every field is copied,
      a null description or material becomes `''` and null images become `[]`. */
  function FormOf(p: Product): (f: FormData)
    ensures f.name == p.name && f.price == p.price
    ensures f.description == OrEmpty(p.description) && f.material == OrEmpty(p.material)
    ensures f.images == if p.images.Some? then p.images.value else []
  {
    FormData(
      OrElse(p.name, ""),
      OrEmpty(p.description),
      OrElse(p.price, ""),
      OrEmpty(p.material),
      if p.images.Some? then p.images.value else [])
  }

  /** `productData`: an empty description or material is saved as null, and so
      is an empty image list; the other fields are saved as they stand. */
  function ToProductData(f: FormData): (d: ProductData)
    ensures d.name == f.name && d.price == f.price
    ensures d.description.None? <==> f.description == ""
    ensures d.description.Some? ==> d.description.value == f.description
    ensures d.material.None? <==> f.material == ""
    ensures d.material.Some? ==> d.material.value == f.material
    ensures d.images.None? <==> f.images == []
    ensures d.images.Some? ==> d.images.value == f.images
  {
    ProductData(
      f.name,
      NullIfEmpty(f.description),
      f.price,
      NullIfEmpty(f.material),
      if |f.images| > 0 then Some(f.images) else None)
  }

  /** Submit updates the product being edited by its id, and inserts otherwise. */
  function WriteFor(product: Option<Product>, f: FormData): (w: Write)
    ensures product.Some? <==> w.Update?
    ensures w.Update? ==> w.id == product.value.id
    ensures w.data == ToProductData(f)
  {
    if product.Some? then Update(product.value.id, ToProductData(f)) else Insert(ToProductData(f))
  }

  /** A product whose optional fields are already stored as null when empty. */
  predicate Normalised(p: Product)
  {
    p.description != Some("") && p.material != Some("") && p.images != Some([])
  }

  /** Opening a stored product and saving it without edits writes back exactly
      its own fields. */
  lemma LoadThenSaveIsIdentity(p: Product)
    requires Normalised(p)
    ensures ToProductData(FormOf(p)) == ProductData(p.name, p.description, p.price, p.material, p.images)
  {
  }

  /** Saving a form and reopening the saved product gives back the same form. */
  lemma SaveThenLoadIsIdentity(f: FormData, id: string, createdAt: string)
    ensures var d := ToProductData(f);
            FormOf(Product(id, createdAt, d.name, d.description, d.price, d.images, d.material)) == f
  {
  }

  /** `images.filter((_, i) => i !== index)` over the part of the list that
      starts at position `from`. */
  function FilterOutIndex(images: seq<string>, index: int, from: int): (r: seq<string>)
    ensures from <= index < from + |images| ==>
              r == images[..index - from] + images[index - from + 1..]
    ensures !(from <= index < from + |images|) ==> r == images
    decreases |images|
  {
    if images == [] then []
    else (if from == index then [] else [images[0]]) + FilterOutIndex(images[1..], index, from + 1)
  }

  /** `handleRemoveImage(index)` on the list: exactly the element at `index`
      goes, the others keep their order; any other index changes nothing. */
  function RemoveImage(images: seq<string>, index: int): (r: seq<string>)
    ensures 0 <= index < |images| ==> |r| == |images| - 1 && r == images[..index] + images[index + 1..]
    ensures !(0 <= index < |images|) ==> r == images
  {
    FilterOutIndex(images, index, 0)
  }

  /** `handleAddImage` on the list: the trimmed URL is appended when it is not
      empty; a blank URL adds nothing. */
  function AddImage(images: seq<string>, url: string): (r: seq<string>)
    ensures Text.Trim(url) != "" ==> r == images + [Text.Trim(url)]
    ensures Text.AllWhitespace(url) ==> r == images
  {
    Text.TrimEmptyIff(url);
    if Text.Trim(url) != "" then images + [Text.Trim(url)] else images
  }

  /** Removing the image just added restores the list. */
  lemma {:induction false} RemoveUndoesAdd(images: seq<string>, url: string)
    requires Text.Trim(url) != ""
    ensures RemoveImage(AddImage(images, url), |images|) == images
  {
    var added := AddImage(images, url);
    assert added[..|images|] == images;
  }

  class Form {
    /** The `product` prop: the product being edited, or none for a new one. */
    var product: Option<Product>
    var formData: FormData
    var loading: bool
    var imageUrl: string
    /** Every store call made by submit, in order. */
    var writes: seq<Write>
    /** How many submits called `onClose`, and how many raised the error alert. */
    var closeCalls: nat
    var failures: nat

    constructor (product: Option<Product>)
      ensures this.product == product && formData == EmptyForm
      ensures !loading && imageUrl == ""
      ensures writes == [] && closeCalls == 0 && failures == 0
    {
      this.product := product;
      formData := EmptyForm;
      loading := false;
      imageUrl := "";
      writes, closeCalls, failures := [], 0, 0;
    }

    /** The effect on `[product]`: an existing product is copied into the form;
        for none the form keeps what it had. */
    method LoadProduct(p: Option<Product>)
      modifies this`product, this`formData
      ensures product == p
      ensures formData == if p.Some? then FormOf(p.value) else old(formData)
    {
      product := p;
      if p.Some? {
        formData := FormOf(p.value);
      }
    }

    /** `handleAddImage`: a non-blank URL is appended trimmed and the input is
        cleared; a blank one changes neither the list nor the input. */
    method HandleAddImage()
      modifies this`formData, this`imageUrl
      ensures Text.Trim(old(imageUrl)) != "" ==>
                formData == old(formData).(images := old(formData.images) + [Text.Trim(old(imageUrl))]) &&
                imageUrl == ""
      ensures Text.Trim(old(imageUrl)) == "" ==> formData == old(formData) && imageUrl == old(imageUrl)
      ensures formData.images == AddImage(old(formData.images), old(imageUrl))
    {
      if Text.Trim(imageUrl) != "" {
        formData := formData.(images := formData.images + [Text.Trim(imageUrl)]);
        imageUrl := "";
      }
    }

    /** `handleRemoveImage(index)`: only the image list changes. */
    method HandleRemoveImage(index: int)
      modifies this`formData
      ensures formData == old(formData).(images := RemoveImage(old(formData.images), index))
    {
      formData := formData.(images := FilterOutIndex(formData.images, index, 0));
    }

    /** `handleSubmit`. `storeFailed` says whether the update or insert
        reported an error (or threw). */
    method HandleSubmit(storeFailed: bool)
      modifies this`loading, this`writes, this`closeCalls, this`failures
      ensures !loading
      ensures writes == old(writes) + [WriteFor(product, formData)]
      ensures closeCalls == old(closeCalls) + (if storeFailed then 0 else 1)
      ensures failures == old(failures) + (if storeFailed then 1 else 0)
    {
      loading := true;
      var productData := ToProductData(formData);
      if product.Some? {
        writes := writes + [Update(product.value.id, productData)];
      } else {
        writes := writes + [Insert(productData)];
      }
      if storeFailed {
        failures := failures + 1;
      } else {
        closeCalls := closeCalls + 1;
      }
      loading := false;
    }
  }
}
