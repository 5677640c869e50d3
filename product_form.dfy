/** The product form of the storefront's admin client: the rule that turns the
    form's fields into a create (POST) or update (PUT) request for a product,
    the stock-level computation and floor checks inside it, and the handlers
    that keep the form's fields. */
module ProductForm {
  import opened Wrappers

  const ManufacturerRequired := "Manufacturer is required."
  const QuantityTooLow := "Initial quantity must be at least 1."
  const BelowFloor := "Stock level cannot be reduced below 1."
  const SaveFailed := "An error occurred while saving the product."

  /** The `product` record an edit form is opened with. The fields the form
      never checks (name, category, price, description) are carried as text. */
  datatype Product = Product(
    id: string,
    name: string,
    category: string,
    price: string,
    description: string,
    manufacturer: string,          // "" when the record has no manufacturer
    quantity: int,                 // read only for the quantity field's default
    stockLevel: Level,
    images: Option<seq<string>>)   // None when the record has no image list

  /** A record's `stock_level`: a number, absent (`undefined`), or `null`
      (what the server stores after a request whose level was NaN). */
  datatype Level = Num(n: int) | Missing | Null

  /** The number JavaScript's `+` and `-` read from a stored level: `null`
      counts as 0, and `undefined` gives NaN, written None. */
  function Operand(l: Level): (r: Option<int>)
    ensures r.None? <==> l.Missing?
    ensures l.Num? ==> r == Some(l.n)
    ensures l.Null? ==> r == Some(0)
  {
    match l
    case Num(n) => Some(n)
    case Null => Some(0)
    case Missing => None
  }

  /** The form's fields at the moment it is submitted. */
  datatype Draft = Draft(
    name: string,
    category: string,
    price: string,
    description: string,
    manufacturer: string,
    quantity: int,
    quantityChange: int,
    quantityOperation: string,
    images: seq<string>)

  /** The body sent to the server. A NaN stock level is serialised as `null`,
      written None. */
  datatype Payload = Payload(
    name: string,
    category: string,
    price: string,
    stockLevel: Option<int>,
    description: string,
    manufacturer: string,
    images: seq<string>)

  datatype Verb = Put(productId: string) | Post
  datatype Request = Request(verb: Verb, payload: Payload)

  /** What a submission does: stop with a message, or send a request. */
  datatype Outcome = Rejected(message: string) | Send(request: Request)

  /** What came back from the request: a response whose body may carry an
      `error` field, or an exception (network failure, non-2xx status). */
  datatype Reply = Answered(errorField: Option<string>) | Threw

  /** The stock level a submission computes: the entered quantity when
      creating, the stored level moved by `change` when editing. Any operation
      other than "Add" subtracts. A record without a stock level gives NaN
      (`undefined` plus a number), written None; a stored `null` counts as 0. */
  function AdjustedStock(product: Option<Product>, quantity: int, operation: string, change: int): (r: Option<int>)
    ensures product.None? ==> r == Some(quantity)
    ensures product.Some? ==> (r.None? <==> product.value.stockLevel.Missing?)
    ensures product.Some? && r.Some? ==>
      var s := Operand(product.value.stockLevel).value;
      r.value - s == change || s - r.value == change
    ensures product.Some? && r.Some? && change >= 0 && operation == "Add" ==>
      r.value >= Operand(product.value.stockLevel).value
    ensures product.Some? && r.Some? && change >= 0 && operation != "Add" ==>
      r.value <= Operand(product.value.stockLevel).value
  {
    if product.None? then
      Some(quantity)
    else
      match product.value.stockLevel
      case Missing => None
      case Null => if operation == "Add" then Some(change) else Some(-change)
      case Num(n) => if operation == "Add" then Some(n + change) else Some(n - change)
  }

  /** The submission rule: the manufacturer check first, then the create-mode
      quantity check, then the update-mode floor check; only then a request.
      The floor check compares with `<`, which is false for NaN. */
  function Validate(product: Option<Product>, d: Draft): (r: Outcome)
    ensures d.manufacturer == "" ==> r == Rejected(ManufacturerRequired)
    ensures r.Send? ==> r.request.payload.stockLevel
                        == AdjustedStock(product, d.quantity, d.quantityOperation, d.quantityChange)
    ensures r.Send? && r.request.payload.stockLevel.Some? ==> r.request.payload.stockLevel.value >= 1
    ensures r.Send? && r.request.payload.stockLevel.None? ==>
      product.Some? && product.value.stockLevel.Missing?
    ensures r.Send? ==> r.request.verb == if product.Some? then Put(product.value.id) else Post
    ensures r.Send? ==> var p := r.request.payload;
      && p.name == d.name && p.category == d.category && p.price == d.price
      && p.description == d.description && p.manufacturer == d.manufacturer && p.images == d.images
    ensures r.Rejected? ==> r.message in {ManufacturerRequired, QuantityTooLow, BelowFloor}
  {
    if d.manufacturer == "" then
      Rejected(ManufacturerRequired)
    else
      var adjusted := AdjustedStock(product, d.quantity, d.quantityOperation, d.quantityChange);
      if product.None? && d.quantity < 1 then
        Rejected(QuantityTooLow)
      else if product.Some? && adjusted.Some? && adjusted.value < 1 then
        Rejected(BelowFloor)
      else
        var verb := if product.Some? then Put(product.value.id) else Post;
        Send(Request(verb, Payload(d.name, d.category, d.price, adjusted, d.description, d.manufacturer, d.images)))
  }

  /** Create mode: the request goes out exactly when the quantity is at least 1,
      and then carries that quantity as the stock level. */
  lemma CreateMode(d: Draft)
    requires d.manufacturer != ""
    ensures Validate(None, d).Send? <==> d.quantity >= 1
    ensures Validate(None, d).Send? ==> Validate(None, d).request.payload.stockLevel == Some(d.quantity)
    ensures d.quantity < 1 ==> Validate(None, d) == Rejected(QuantityTooLow)
  {
  }

  /** Update mode: with a stored number or `null` (read as 0), the request
      goes out exactly when the adjusted level is at least 1, and otherwise the
      floor message stops it. Without a stored level the sum is NaN, the floor
      check passes, and the request carries `null`. */
  lemma UpdateMode(p: Product, d: Draft)
    requires d.manufacturer != ""
    ensures !p.stockLevel.Missing? ==>
      var s := if p.stockLevel.Num? then p.stockLevel.n else 0;
      var adjusted := if d.quantityOperation == "Add" then s + d.quantityChange
                      else s - d.quantityChange;
      && (Validate(Some(p), d).Send? <==> adjusted >= 1)
      && (Validate(Some(p), d).Send? ==> Validate(Some(p), d).request.payload.stockLevel == Some(adjusted))
      && (adjusted < 1 ==> Validate(Some(p), d) == Rejected(BelowFloor))
    ensures p.stockLevel.Missing? ==>
      Validate(Some(p), d).Send? && Validate(Some(p), d).request.payload.stockLevel.None?
  {
  }

  /** From a level of at least 1, adding any non-negative amount is accepted. */
  lemma AddAlwaysAccepted(p: Product, d: Draft)
    requires d.manufacturer != "" && d.quantityOperation == "Add"
    requires p.stockLevel.Num? && p.stockLevel.n >= 1 && d.quantityChange >= 0
    ensures Validate(Some(p), d).Send?
    ensures Validate(Some(p), d).request.payload.stockLevel == Some(p.stockLevel.n + d.quantityChange)
  {
  }

  /** With a stored number, subtracting is accepted exactly when at least one
      unit remains. */
  lemma SubtractAcceptedIff(p: Product, d: Draft)
    requires d.manufacturer != "" && d.quantityOperation != "Add" && p.stockLevel.Num?
    ensures Validate(Some(p), d).Send? <==> d.quantityChange <= p.stockLevel.n - 1
  {
  }

  /** The `parseInt(...) || 0` normalisation: NaN and 0 are both falsy, so the
      result is the parsed number when there is one and 0 otherwise. */
  function ParsedOrZero(parsed: Option<int>): (r: int)
    ensures r == if parsed.Some? then parsed.value else 0
  {
    if parsed.Some? && parsed.value != 0 then parsed.value else 0
  }

  /** The adjustment field's `Math.max(0, parseInt(...) || 0)`: never negative,
      the parsed number when it is one, 0 for NaN and for negatives. */
  function ClampedChange(parsed: Option<int>): (r: int)
    ensures r >= 0
    ensures parsed.Some? && parsed.value >= 0 ==> r == parsed.value
    ensures parsed.None? || parsed.value < 0 ==> r == 0
  {
    var n := ParsedOrZero(parsed);
    if n > 0 then n else 0
  }

  /** The error text left after a request was sent and `reply` came back:
      the body's `error` field when it is truthy, the generic message after an
      exception, and the cleared text otherwise. */
  function ErrorAfter(reply: Reply): (r: string)
    ensures reply.Threw? ==> r == SaveFailed
    ensures reply.Answered? && Truthy(reply.errorField) ==> r == reply.errorField.value
    ensures reply.Answered? && !Truthy(reply.errorField) ==> r == ""
    ensures reply.Answered? ==> (r != "" <==> !Saved(reply))
  {
    match reply
    case Threw => SaveFailed
    case Answered(e) => if Truthy(e) then e.value else ""
  }

  /** Whether `onSave` runs: only for an answer without a truthy `error` field. */
  predicate Saved(reply: Reply) {
    reply.Answered? && !Truthy(reply.errorField)
  }

  /** What the server stores for a sent level: the number, or `null`. */
  function Stored(level: Option<int>): (l: Level)
    ensures level.Some? ==> l == Num(level.value)
    ensures level.None? ==> l == Null
  {
    if level.Some? then Num(level.value) else Null
  }

  /** The product record after one submission of the edit form, given that the
      server stores the payload's stock level as sent; a rejected submission
      sends nothing, so the record keeps its level. */
  function AfterSubmit(p: Product, d: Draft): (q: Product)
    ensures Validate(Some(p), d).Rejected? ==> q == p
    ensures Validate(Some(p), d).Send? ==>
      q == p.(stockLevel := Stored(Validate(Some(p), d).request.payload.stockLevel))
    ensures !p.stockLevel.Missing? ==> q == p || (q.stockLevel.Num? && q.stockLevel.n >= 1)
    ensures p.stockLevel.Missing? ==> q == p || q.stockLevel == Null
  {
    match Validate(Some(p), d)
    case Rejected(_) => p
    case Send(req) => p.(stockLevel := Stored(req.payload.stockLevel))
  }

  /** The record after the edit form is submitted with each draft in turn. */
  function Replayed(p: Product, drafts: seq<Draft>): Product
    decreases |drafts|
  {
    if drafts == [] then p else Replayed(AfterSubmit(p, drafts[0]), drafts[1..])
  }

  /** A stock level of at least 1 stays a number of at least 1 through any
      sequence of edit-form submissions, accepted or rejected. */
  lemma {:induction false} EditsKeepFloor(p: Product, drafts: seq<Draft>)
    requires p.stockLevel.Num? && p.stockLevel.n >= 1
    ensures Replayed(p, drafts).stockLevel.Num? && Replayed(p, drafts).stockLevel.n >= 1
    decreases |drafts|
  {
    if drafts != [] {
      EditsKeepFloor(AfterSubmit(p, drafts[0]), drafts[1..]);
    }
  }

  /** Create with 5, add 3, try to subtract 10 (rejected, the level stays 8),
      subtract 7 (accepted, the floor of 1 is reached exactly). */
  lemma StockScenario(d: Draft)
    requires d.manufacturer != "" && d.quantity == 5
    ensures Validate(None, d).Send? && Validate(None, d).request.payload.stockLevel == Some(5)
    ensures var created := Product("p", d.name, d.category, d.price, d.description,
                                   d.manufacturer, 0, Num(5), Some(d.images));
            var add3 := d.(quantityOperation := "Add", quantityChange := 3);
            var sub10 := d.(quantityOperation := "Subtract", quantityChange := 10);
            var sub7 := d.(quantityOperation := "Subtract", quantityChange := 7);
            && Replayed(created, [add3]).stockLevel == Num(8)
            && Validate(Some(Replayed(created, [add3])), sub10) == Rejected(BelowFloor)
            && Replayed(created, [add3, sub10]).stockLevel == Num(8)
            && Replayed(created, [add3, sub10, sub7]).stockLevel == Num(1)
  {
    var created := Product("p", d.name, d.category, d.price, d.description,
                           d.manufacturer, 0, Num(5), Some(d.images));
    var add3 := d.(quantityOperation := "Add", quantityChange := 3);
    var sub10 := d.(quantityOperation := "Subtract", quantityChange := 10);
    var sub7 := d.(quantityOperation := "Subtract", quantityChange := 7);
    var at8 := AfterSubmit(created, add3);
    assert at8.stockLevel == Num(8);
    assert AfterSubmit(at8, sub10) == at8;
    assert AfterSubmit(at8, sub7).stockLevel == Num(1);
    assert [add3, sub10, sub7][1..] == [sub10, sub7];
    assert [sub10, sub7][1..] == [sub7];
    assert [add3, sub10][1..] == [sub10];
    assert Replayed(at8, [sub7]) == Replayed(AfterSubmit(at8, sub7), []);
    assert Replayed(at8, [sub10, sub7]) == Replayed(at8, [sub7]);
    assert Replayed(created, [add3, sub10, sub7]) == Replayed(at8, [sub10, sub7]);
  }


  /** A record without a stock level: the first "Add 3" sends NaN, which the
      server stores as `null`; the second reads `null` as 0 and stores 3. A
      "Subtract" from a stored `null` is refused by the floor check. */
  lemma MissingLevelScenario(p: Product, d: Draft)
    requires p.stockLevel == Missing && d.manufacturer != ""
    requires d.quantityOperation == "Add" && d.quantityChange == 3
    ensures AfterSubmit(p, d).stockLevel == Null
    ensures Replayed(p, [d, d]).stockLevel == Num(3)
    ensures Validate(Some(AfterSubmit(p, d)), d.(quantityOperation := "Subtract")) == Rejected(BelowFloor)
  {
    var once := AfterSubmit(p, d);
    assert [d, d][1..] == [d];
    assert Replayed(p, [d, d]) == Replayed(once, [d]);
    assert Replayed(once, [d]) == Replayed(AfterSubmit(once, d), []);
  }

  /** The form component: one field per `useState`, and the handlers that
      change them. `product` is the prop the form was opened with. */
  class Form {
    const product: Option<Product>
    var name: string
    var category: string
    var price: string
    var quantity: int
    var quantityChange: int
    var quantityOperation: string
    var manufacturer: string
    var description: string
    var images: seq<string>
    var error: string

    /** The adjustment magnitude is never negative. */
    ghost predicate Valid()
      reads this
    {
      quantityChange >= 0
    }

    /** The fields a submission reads. */
    function Current(): Draft
      reads this
    {
      Draft(name, category, price, description, manufacturer,
            quantity, quantityChange, quantityOperation, images)
    }

    /** The initial state: a new-product form starts empty with quantity 0 and
        one blank image field; an edit form starts from the record. */
    constructor (product: Option<Product>)
      ensures this.product == product && Valid()
      ensures product.None? ==>
        && name == "" && category == "" && price == "" && description == ""
        && manufacturer == "" && quantity == 0 && images == [""]
      ensures product.Some? ==>
        && name == product.value.name && category == product.value.category
        && price == product.value.price && description == product.value.description
        && manufacturer == product.value.manufacturer
        && quantity == product.value.quantity
        && images == (if product.value.images.Some? then product.value.images.value else [])
      ensures quantityChange == 0 && quantityOperation == "Add" && error == ""
    {
      this.product := product;
      name := if product.Some? then product.value.name else "";
      category := if product.Some? then product.value.category else "";
      price := if product.Some? then product.value.price else "";
      quantity := if product.Some? then product.value.quantity else 0;
      quantityChange := 0;
      quantityOperation := "Add";
      manufacturer := if product.Some? && product.value.manufacturer != "" then product.value.manufacturer else "";
      description := if product.Some? then product.value.description else "";
      images := if product.None? then [""]
                else if product.value.images.Some? then product.value.images.value
                else [];
      error := "";
    }

    /** Replaces the image URL at `index`; the list keeps its length and every
        other entry. */
    method HandleImageChange(index: nat, value: string)
      requires index < |images|
      modifies this`images
      ensures |images| == |old(images)|
      ensures images[index] == value
      ensures forall j :: 0 <= j < |images| && j != index ==> images[j] == old(images)[j]
    {
      var newImages := images;
      newImages := newImages[index := value];
      images := newImages;
    }

    /** Appends one empty image URL field. */
    method AddImageField()
      modifies this`images
      ensures images == old(images) + [""]
    {
      images := images + [""];
    }

    /** The initial-quantity input: non-numeric text becomes 0. */
    method SetQuantity(parsed: Option<int>)
      modifies this`quantity
      ensures quantity == ParsedOrZero(parsed)
    {
      quantity := ParsedOrZero(parsed);
    }

    /** The adjustment input: non-numeric text becomes 0, negatives are clamped. */
    method SetQuantityChange(parsed: Option<int>)
      modifies this`quantityChange
      ensures quantityChange == ClampedChange(parsed) && Valid()
    {
      quantityChange := ClampedChange(parsed);
    }

    /** The Add/Subtract select. */
    method SetQuantityOperation(operation: string)
      modifies this`quantityOperation
      ensures quantityOperation == operation
    {
      quantityOperation := operation;
    }

    /** The manufacturer select; its blank option gives "". */
    method SetManufacturer(value: string)
      modifies this`manufacturer
      ensures manufacturer == value
    {
      manufacturer := value;
    }

    /** Submits the form. The error text is cleared first; a rejected draft
        sets its message and sends nothing; otherwise the request is sent and
        `reply` decides the error text and whether `onSave` runs. */
    method HandleSubmit(reply: Reply) returns (sent: Option<Request>, saved: bool)
      modifies this`error
      ensures var outcome := Validate(product, old(Current()));
        && (outcome.Rejected? ==> sent == None && !saved && error == outcome.message)
        && (outcome.Send? ==> sent == Some(outcome.request) && saved == Saved(reply)
                              && error == ErrorAfter(reply))
    {
      error := "";
      var outcome := Validate(product, Current());
      match outcome
      case Rejected(message) =>
        error := message;
        sent, saved := None, false;
      case Send(request) =>
        sent := Some(request);
        if reply.Threw? {
          error := SaveFailed;
          saved := false;
        } else if Truthy(reply.errorField) {
          error := reply.errorField.value;
          saved := false;
        } else {
          saved := true;
        }
    }
  }

  /** A new-product form whose quantity field was never edited is rejected
      with the quantity message once a manufacturer is chosen. */
  lemma UntouchedCreateRejected(d: Draft)
    requires d.manufacturer != "" && d.quantity == 0
    ensures Validate(None, d) == Rejected(QuantityTooLow)
  {
  }

  /** On an edit form kept valid by its handlers, "Add" is always accepted. */
  lemma AddOnValidFormAccepted(f: Form)
    requires f.Valid() && f.product.Some?
    requires f.product.value.stockLevel.Num? && f.product.value.stockLevel.n >= 1
    requires f.manufacturer != "" && f.quantityOperation == "Add"
    ensures Validate(f.product, f.Current()).Send?
  {
  }
}
