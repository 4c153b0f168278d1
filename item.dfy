/**
 * The catalog item record (`itemSchema`): the fields a document supplies,
 * the validation the schema applies on save, and the defaults it fills in.
 */
module ItemModel {
  import opened Wrappers

  /** The six values the category enum admits. */
  const Categories: set<string> := {"Electronics", "Clothing", "Books", "Home", "Sports", "Beauty"}

  const PlaceholderImage: string := "https://via.placeholder.com/300x300"
  const DefaultInStock: bool := true
  const DefaultStock: int := 10

  /** A stored catalog item. Prices are taken as already-parsed reals. */
  datatype Item = Item(
    name: string,
    description: string,
    price: real,
    category: string,
    image: string,
    inStock: bool,
    stock: int)

  /** The fields as a client supplies them; any of them may be missing. */
  datatype ItemInput = ItemInput(
    name: Option<string>,
    description: Option<string>,
    price: Option<real>,
    category: Option<string>,
    image: Option<string>,
    inStock: Option<bool>,
    stock: Option<int>)

  /** The fields that carry a validator. */
  datatype Field = Name | Description | Price | Category

  /** The white space and line terminators `String.prototype.trim` strips. */
  predicate IsWhitespace(c: char): (b: bool)
    ensures c == ' ' || c == '\t' || c == '\n' || c == '\r' ==> b
    ensures '!' <= c <= '~' ==> !b
  {
    || c == ' ' || c == '\t' || c == '\n' || c == '\r'
    || c == '\U{000B}' || c == '\U{000C}' || c == '\U{00A0}' || c == '\U{FEFF}'
    || c == '\U{1680}' || ('\U{2000}' <= c <= '\U{200A}')
    || c == '\U{2028}' || c == '\U{2029}' || c == '\U{202F}' || c == '\U{205F}' || c == '\U{3000}'
  }

  /** Neither starts nor ends with white space. */
  predicate IsTrimmed(s: string) {
    s == [] || (!IsWhitespace(s[0]) && !IsWhitespace(s[|s| - 1]))
  }

  function TrimStart(s: string): (r: string)
    ensures |r| <= |s| && r == s[|s| - |r|..]
    ensures r == [] || !IsWhitespace(r[0])
    ensures forall k :: 0 <= k < |s| - |r| ==> IsWhitespace(s[k])
  {
    if s != [] && IsWhitespace(s[0]) then TrimStart(s[1..]) else s
  }

  function TrimEnd(s: string): (r: string)
    ensures |r| <= |s| && r == s[..|r|]
    ensures r == [] || !IsWhitespace(r[|r| - 1])
    ensures forall k :: |r| <= k < |s| ==> IsWhitespace(s[k])
  {
    if s != [] && IsWhitespace(s[|s| - 1]) then TrimEnd(s[..|s| - 1]) else s
  }

  /** The schema's `trim: true` setter. */
  function Trim(s: string): (r: string)
    ensures IsTrimmed(r)
    ensures |r| <= |s|
    ensures IsTrimmed(s) ==> r == s
  {
    TrimEnd(TrimStart(s))
  }

  /** Trimming an already trimmed name changes nothing. */
  lemma TrimIdempotent(s: string)
    ensures Trim(Trim(s)) == Trim(s)
  {
  }

  /** The fields whose validator rejects the input. A required string is
      missing when absent or empty; the name is checked after trimming. */
  function Errors(input: ItemInput): (errs: set<Field>)
    ensures errs == {} <==>
      && input.name.Some? && input.description.Some? && input.price.Some? && input.category.Some?
      && ValidItem(Item(Trim(input.name.value), input.description.value, input.price.value,
                        input.category.value, PlaceholderImage, DefaultInStock, DefaultStock))
  {
    (if input.name.None? || Trim(input.name.value) == [] then {Name} else {})
    + (if input.description.None? || input.description.value == [] then {Description} else {})
    + (if input.price.None? || input.price.value < 0.0 then {Price} else {})
    + (if input.category.None? || input.category.value !in Categories then {Category} else {})
  }

  /** What a stored item satisfies. */
  predicate ValidItem(it: Item): (valid: bool)
    ensures valid ==> Trim(it.name) == it.name
  {
    && it.name != [] && IsTrimmed(it.name)
    && it.description != []
    && it.price >= 0.0
    && it.category in Categories
  }

  /** Saving a document: the trimmed name, the defaults for missing optional
      fields, or the set of fields that failed validation. */
  function Create(input: ItemInput): (r: Result<Item, set<Field>>)
    ensures r.Ok? <==> Errors(input) == {}
    ensures r.Err? ==> r.error == Errors(input) && r.error != {}
    ensures r.Ok? ==> ValidItem(r.value)
    ensures r.Ok? ==> r.value.name == Trim(input.name.value)
    ensures r.Ok? ==> && r.value.description == input.description.value
                      && r.value.price == input.price.value
                      && r.value.category == input.category.value
    ensures r.Ok? ==> r.value.image == (if input.image.Some? then input.image.value else PlaceholderImage)
    ensures r.Ok? ==> r.value.inStock == (input.inStock.None? || input.inStock.value)
    ensures r.Ok? ==> r.value.stock == (if input.stock.Some? then input.stock.value else DefaultStock)
  {
    var errs := Errors(input);
    if errs != {} then Err(errs)
    else
      Ok(Item(Trim(input.name.value), input.description.value, input.price.value,
              input.category.value, input.image.GetOr(PlaceholderImage),
              input.inStock.GetOr(DefaultInStock), input.stock.GetOr(DefaultStock)))
  }

  /** The document that supplies every field of `it`. */
  function AsInput(it: Item): ItemInput {
    ItemInput(Some(it.name), Some(it.description), Some(it.price), Some(it.category),
              Some(it.image), Some(it.inStock), Some(it.stock))
  }

  /** Every valid item is accepted as it is: validation and trimming are the
      exact inverse of reading back a stored valid item. */
  lemma CreateRoundTrip(it: Item)
    requires ValidItem(it)
    ensures Create(AsInput(it)) == Ok(it)
  {
  }

  /** A missing name, or one that is only white space, is rejected. */
  lemma BlankNameRejected(input: ItemInput)
    requires input.name.None? || Trim(input.name.value) == []
    ensures Create(input).Err? && Name in Create(input).error
  {
  }

  /** A missing or empty description is rejected. */
  lemma MissingDescriptionRejected(input: ItemInput)
    requires input.description.None? || input.description.value == []
    ensures Create(input).Err? && Description in Create(input).error
  {
  }

  /** A negative price is rejected, whatever the other fields are. */
  lemma NegativePriceRejected(input: ItemInput)
    requires input.price.Some? && input.price.value < 0.0
    ensures Create(input).Err? && Price in Create(input).error
  {
  }

  /** A category outside the enum is rejected. */
  lemma UnknownCategoryRejected(input: ItemInput)
    requires input.category.Some? && input.category.value !in Categories
    ensures Create(input).Err? && Category in Create(input).error
  {
  }
}
