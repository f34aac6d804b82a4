/**
 * The add / edit product form (components/EditProductModal.tsx): its
 * initial values, the number coercion of the price and stock fields, the
 * image input-type guess, and the record handed to the catalogue on submit,
 * whose display price is rebuilt from the numeric price and a unit suffix.
 */
module EditProductModal {

  import opened Seqs
  import opened Text
  import opened Types
  import opened App

  /** The category a new product starts in when the list gives none. */
  const FallbackCategory: string := "Undangan Pernikahan"

  /** The address of the placeholder picture, before its random number. */
  const PlaceholderImage: string := "https://picsum.photos/400/300?random="

  /** The unit written after the price: per piece for invitations and books, per box for cards. */
  function UnitSuffix(category: string): (r: string)
    ensures r == "/ pcs" <==> Contains(category, "Undangan") || Contains(category, "Buku")
    ensures r == "/ Box" <==> !Contains(category, "Undangan") && !Contains(category, "Buku") && Contains(category, "Kartu")
    ensures r == "" <==> !Contains(category, "Undangan") && !Contains(category, "Buku") && !Contains(category, "Kartu")
  {
    if Contains(category, "Undangan") || Contains(category, "Buku") then "/ pcs"
    else if Contains(category, "Kartu") then "/ Box"
    else ""
  }

  /** `categories[0] || 'Undangan Pernikahan'`: the first category, unless there is none or it is empty. */
  function DefaultCategory(categories: seq<string>): (c: string)
    ensures c != ""
    ensures c in categories || c == FallbackCategory
    ensures categories != [] && categories[0] != "" ==> c == categories[0]
    ensures categories == [] ==> c == FallbackCategory
    ensures categories != [] && categories[0] == "" ==> c == FallbackCategory
  {
    if categories != [] && categories[0] != "" then categories[0] else FallbackCategory
  }

  /** The image field's tab: file upload or address. */
  datatype ImageInput = FileInput | UrlInput

  /** An uploaded picture is stored as a `data:` address; anything else is taken for a web address. */
  function ImageInputFor(image: string): (k: ImageInput)
    ensures k == FileInput <==> StartsWith(image, "data:")
  {
    if StartsWith(image, "data:") then FileInput else UrlInput
  }

  /** The empty form, before the effect has run. */
  function BlankForm(categories: seq<string>): Product
  {
    Product("", "", DefaultCategory(categories), 0, "", "", "", 0)
  }

  /**
   * The form for a new product: an id from the clock, the default category,
   * a placeholder picture chosen at random, and zero price and stock.
   */
  function NewProductForm(categories: seq<string>, timestamp: string, randomNumber: string): (p: Product)
    ensures p.id == "PROD-" + timestamp
    ensures p.category == DefaultCategory(categories)
    ensures StartsWith(p.image, PlaceholderImage)
    ensures p.price == 0 && p.stock == 0
    ensures p.name == "" && p.displayPrice == "" && p.description == ""
  {
    StartsWithConcat(PlaceholderImage, randomNumber);
    Product("PROD-" + timestamp, "", DefaultCategory(categories), 0, "", PlaceholderImage + randomNumber, "", 0)
  }

  lemma {:induction false} StartsWithConcat(a: string, b: string)
    ensures StartsWith(a + b, a)
  {
    assert (a + b)[..|a|] == a;
  }

  /** The form fields, by their `name` attribute. */
  datatype Field = IdField | NameField | CategoryField | PriceField | DisplayPriceField
                 | ImageField | DescriptionField | StockField

  /** The value a field holds. */
  datatype FieldValue = Text(text: string) | Number(number: int)

  predicate IsNumeric(f: Field)
  {
    f == PriceField || f == StockField
  }

  function Get(p: Product, f: Field): FieldValue
  {
    match f
    case IdField => Text(p.id)
    case NameField => Text(p.name)
    case CategoryField => Text(p.category)
    case PriceField => Number(p.price)
    case DisplayPriceField => Text(p.displayPrice)
    case ImageField => Text(p.image)
    case DescriptionField => Text(p.description)
    case StockField => Number(p.stock)
  }

  /**
   * `handleChange`: the field that changed takes the new value, as a number
   * for price and stock (`number` is `Number(value)`) and as the text itself
   * for every other field; no other field changes.
   */
  function WithField(p: Product, f: Field, text: string, number: int): (r: Product)
    ensures Get(r, f) == if IsNumeric(f) then Number(number) else Text(text)
    ensures forall g :: g != f ==> Get(r, g) == Get(p, g)
  {
    match f
    case IdField => p.(id := text)
    case NameField => p.(name := text)
    case CategoryField => p.(category := text)
    case PriceField => p.(price := number)
    case DisplayPriceField => p.(displayPrice := text)
    case ImageField => p.(image := text)
    case DescriptionField => p.(description := text)
    case StockField => p.(stock := number)
  }

  /** Two products that hold the same value in every field are the same product. */
  lemma {:induction false} SameFieldsSameProduct(p: Product, q: Product)
    requires forall g :: Get(p, g) == Get(q, g)
    ensures p == q
  {
    assert Get(p, IdField) == Get(q, IdField) && Get(p, NameField) == Get(q, NameField);
    assert Get(p, CategoryField) == Get(q, CategoryField) && Get(p, PriceField) == Get(q, PriceField);
    assert Get(p, DisplayPriceField) == Get(q, DisplayPriceField) && Get(p, ImageField) == Get(q, ImageField);
    assert Get(p, DescriptionField) == Get(q, DescriptionField) && Get(p, StockField) == Get(q, StockField);
  }

  /**
   * Only price and stock read the number: a text field ignores it, and a
   * numeric field ignores the text.
   */
  lemma ChangeCoercesOnlyNumbers(p: Product, f: Field, t1: string, t2: string, n1: int, n2: int)
    ensures !IsNumeric(f) ==> WithField(p, f, t1, n1) == WithField(p, f, t1, n2)
    ensures IsNumeric(f) ==> WithField(p, f, t1, n1) == WithField(p, f, t2, n1)
  {
    var a, b := WithField(p, f, t1, n1), WithField(p, f, t1, n2);
    if !IsNumeric(f) {
      forall g ensures Get(a, g) == Get(b, g) {
        if g != f {
          assert Get(a, g) == Get(p, g) == Get(b, g);
        }
      }
      SameFieldsSameProduct(a, b);
    } else {
      var c := WithField(p, f, t2, n1);
      forall g ensures Get(a, g) == Get(c, g) {
        if g != f {
          assert Get(a, g) == Get(p, g) == Get(c, g);
        }
      }
      SameFieldsSameProduct(a, c);
    }
  }

  /**
   * `finalData`: the form as it stands, except that the display price becomes
   * the formatted numeric price, a space and the category's unit suffix.
   * `format` stands for the rupiah currency formatter.
   */
  function FinalProduct(form: Product, format: int -> string): (p: Product)
    ensures p.displayPrice == format(form.price) + " " + UnitSuffix(form.category)
    ensures forall g :: g != DisplayPriceField ==> Get(p, g) == Get(form, g)
  {
    form.(displayPrice := format(form.price) + " " + UnitSuffix(form.category))
  }

  /** Submitting a saved record again changes nothing: its display price is already the rebuilt one. */
  lemma SubmitIsIdempotent(form: Product, format: int -> string)
    ensures FinalProduct(FinalProduct(form, format), format) == FinalProduct(form, format)
  {
  }

  /** Whatever display price was typed in the form, the saved one is the rebuilt one. */
  lemma TypedDisplayPriceIsIgnored(form: Product, typed: string, format: int -> string)
    ensures FinalProduct(form.(displayPrice := typed), format) == FinalProduct(form, format)
  {
  }

  class ProductForm {
    var formData: Product
    var inputType: ImageInput

    /** The initial state: a blank form in the default category, on the file tab. */
    constructor (categories: seq<string>)
      ensures formData == BlankForm(categories) && inputType == FileInput
    {
      formData := BlankForm(categories);
      inputType := FileInput;
    }

    /**
     * The effect run when the dialog opens: an existing product is copied
     * into the form and its picture's origin picks the tab; otherwise the form
     * for a new product is filled and the tab is left as it was.
     */
    method Load(product: Option<Product>, categories: seq<string>, timestamp: string, randomNumber: string)
      modifies this`formData, this`inputType
      ensures product.Some? ==> formData == product.value && inputType == ImageInputFor(product.value.image)
      ensures product.None? ==>
        formData == NewProductForm(categories, timestamp, randomNumber) && inputType == old(inputType)
    {
      match product
      case Some(p) =>
        formData := p;
        if StartsWith(p.image, "data:") {
          inputType := FileInput;
        } else {
          inputType := UrlInput;
        }
      case None =>
        formData := NewProductForm(categories, timestamp, randomNumber);
    }

    method HandleChange(f: Field, text: string, number: int)
      modifies this`formData
      ensures formData == WithField(old(formData), f, text, number)
    {
      formData := WithField(formData, f, text, number);
    }

    /**
     * `handleSubmit` followed by the dashboard's `handleSaveProduct`: when
     * editing, the record replaces the products with its id; otherwise it is
     * put first in the catalogue.
     */
    method HandleSubmit(store: Store, isEditing: bool, format: int -> string)
      modifies store`products
      ensures isEditing ==> store.products == CatalogueAfterUpdate(old(store.products), FinalProduct(formData, format))
      ensures !isEditing ==> store.products == [FinalProduct(formData, format)] + old(store.products)
    {
      var finalData := FinalProduct(formData, format);
      if isEditing {
        store.UpdateProduct(finalData);
      } else {
        store.AddProduct(finalData);
      }
    }
  }
}
