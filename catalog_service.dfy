/** The catalog service's product logic: field selection on creation and the
    batch stock validation `validateStockBatch`, which checks every requested
    line against the stored products and then decrements their stock. */
module CatalogService {

  import opened Wrappers
  import opened Text

  /** A stored product; prices and stock are integers (prices in cents). */
  datatype Product = Product(name: string, description: string, price: int, stock: int)

  /** One requested line `{ productId, quantity }`. Nothing forces the
      quantity to be positive. */
  datatype Line = Line(productId: string, quantity: int)

  datatype ProcessedItem = ProcessedItem(productId: string, name: string, price: int, quantity: int, subtotal: int)

  /** `{ valid, totalPrice, processedItems }` */
  datatype Validation = Validation(valid: bool, totalPrice: int, processedItems: seq<ProcessedItem>)

  type Store = map<string, Product>

  // ---------------------------------------------------------------------------
  // createProduct
  // ---------------------------------------------------------------------------

  const ProductFields: set<string> := {"name", "description", "price", "stock"}

  /** The destructuring `{ name, description, price, stock } = data`: every
      other field of the request body is dropped, these four are kept as sent. */
  function SelectProductFields<V>(body: map<string, V>): (r: map<string, V>)
    ensures r.Keys == body.Keys * ProductFields
    ensures forall k :: k in r ==> r[k] == body[k]
  {
    map k | k in body && k in ProductFields :: body[k]
  }

  // ---------------------------------------------------------------------------
  // validateStockBatch: the check pass
  // ---------------------------------------------------------------------------

  predicate HexChar(c: char) {
    '0' <= c <= '9' || 'a' <= c <= 'f' || 'A' <= c <= 'F'
  }

  /** What `findById` can cast to an ObjectId: 24 hexadecimal digits. */
  predicate IsObjectId(id: string) {
    |id| == 24 && forall k :: 0 <= k < |id| ==> HexChar(id[k])
  }

  /** A letter A-F in lower case; every other character as it is. */
  function LowerChar(c: char): char {
    if 'A' <= c <= 'Z' then (c as int - 'A' as int + 'a' as int) as char else c
  }

  /** The stored spelling of an id: `findById` casts the hex digits without
      regard to case, and the stored `_id` prints them in lower case. */
  function Canonical(id: string): (r: string)
    ensures |r| == |id|
    ensures forall k :: 0 <= k < |id| ==> r[k] == LowerChar(id[k])
  {
    if id == [] then [] else [LowerChar(id[0])] + Canonical(id[1..])
  }

  /** The key a line is looked up under. */
  function Key(line: Line): string {
    Canonical(line.productId)
  }

  const CastPrefix: string := "Cast to ObjectId " + "failed for value \""
  const CastSuffix: string := "\" (type string) " + "at path \"_id\" " + "for model \"Product\""

  /** The message of the CastError that `findById` throws for an id it cannot
      cast: neither "no encontrado" nor "Stock insuficiente" appear in it. */
  function CastErrorMessage(id: string): string {
    CastPrefix + id + CastSuffix
  }

  function NotFoundMessage(id: string): string {
    "Producto con ID " + id + " no encontrado"
  }

  function ShortStockMessage(name: string, available: int, requested: int): string {
    "Stock insuficiente" + ShortStockDetail(name, available, requested)
  }

  /** What follows "Stock insuficiente": the product, the stock and the request. */
  function ShortStockDetail(name: string, available: int, requested: int): string {
    " para \"" + name + "\". Disponible: " + IntToString(available) + ", solicitado: " + IntToString(requested)
  }

  /** One iteration of the check loop, against the stock as it was before the
      batch: the cast of the id, its lookup under the stored spelling, then the
      stock test. The processed item carries `product._id`, the stored spelling;
      the messages quote the id as requested. */
  function CheckLine(store: Store, line: Line): Result<ProcessedItem, string> {
    if !IsObjectId(line.productId) then Failure(CastErrorMessage(line.productId))
    else if Key(line) !in store then Failure(NotFoundMessage(line.productId))
    else
      var p := store[Key(line)];
      if p.stock < line.quantity then Failure(ShortStockMessage(p.name, p.stock, line.quantity))
      else Success(ProcessedItem(Key(line), p.name, p.price, line.quantity, p.price * line.quantity))
  }

  /** The check loop over a batch: the processed items of every line, or the
      error of the first line that fails. */
  function CheckBatch(store: Store, lines: seq<Line>): Result<seq<ProcessedItem>, string>
    decreases |lines|
  {
    if lines == [] then Success([])
    else
      match CheckBatch(store, lines[..|lines| - 1])
      case Failure(e) => Failure(e)
      case Success(done) =>
        match CheckLine(store, lines[|lines| - 1])
        case Failure(e) => Failure(e)
        case Success(item) => Success(done + [item])
  }

  /** The running `totalPrice`. */
  function SumSubtotals(items: seq<ProcessedItem>): int
    decreases |items|
  {
    if items == [] then 0 else SumSubtotals(items[..|items| - 1]) + items[|items| - 1].subtotal
  }

  /** What `validateStockBatch` returns or throws, as a function of the store
      before the call. */
  function ValidateSpec(store: Store, lines: seq<Line>): Result<Validation, string> {
    match CheckBatch(store, lines)
    case Failure(e) => Failure(e)
    case Success(items) => Success(Validation(true, SumSubtotals(items), items))
  }

  // ---------------------------------------------------------------------------
  // validateStockBatch: the update pass
  // ---------------------------------------------------------------------------

  /** `findByIdAndUpdate(id, { $inc: { stock: -quantity } })`; no effect on an absent id. */
  function ApplyLine(store: Store, line: Line): Store {
    if Key(line) in store then
      store[Key(line) := store[Key(line)].(stock := store[Key(line)].stock - line.quantity)]
    else store
  }

  /** The update loop over the whole batch. */
  function Reserve(store: Store, lines: seq<Line>): Store
    decreases |lines|
  {
    if lines == [] then store else ApplyLine(Reserve(store, lines[..|lines| - 1]), lines[|lines| - 1])
  }

  /** The total quantity that the lines of a batch request for one stored id,
      whatever the case of their hex digits. */
  function Requested(lines: seq<Line>, id: string): int
    decreases |lines|
  {
    if lines == [] then 0
    else Requested(lines[..|lines| - 1], id) + (if Key(lines[|lines| - 1]) == id then lines[|lines| - 1].quantity else 0)
  }

  // ---------------------------------------------------------------------------
  // Properties of the check pass
  // ---------------------------------------------------------------------------

  /** A failure in a prefix of the batch is the failure of the whole batch:
      later lines are not examined. */
  lemma {:induction false} PrefixFailureDecides(store: Store, lines: seq<Line>, n: nat)
    requires n <= |lines| && CheckBatch(store, lines[..n]).Failure?
    ensures CheckBatch(store, lines) == CheckBatch(store, lines[..n])
    decreases |lines| - n
  {
    if n < |lines| {
      assert lines[..n + 1][..n] == lines[..n];
      PrefixFailureDecides(store, lines, n + 1);
    } else {
      assert lines[..n] == lines;
    }
  }

  /** The batch passes exactly when every line passes on its own, and then
      the processed items are those of the lines, in input order. */
  lemma {:induction false} CheckBatchPasses(store: Store, lines: seq<Line>)
    ensures CheckBatch(store, lines).Success? <==> forall j :: 0 <= j < |lines| ==> CheckLine(store, lines[j]).Success?
    ensures CheckBatch(store, lines).Success? ==>
      |CheckBatch(store, lines).value| == |lines| &&
      forall j :: 0 <= j < |lines| ==> CheckBatch(store, lines).value[j] == CheckLine(store, lines[j]).value
    decreases |lines|
  {
    if lines != [] {
      var front := lines[..|lines| - 1];
      CheckBatchPasses(store, front);
      assert forall j :: 0 <= j < |front| ==> front[j] == lines[j];
    }
  }

  /** The first failing line, in input order, decides the error. */
  lemma {:induction false} FirstFailingLineDecides(store: Store, lines: seq<Line>, i: nat)
    requires i < |lines|
    requires forall j :: 0 <= j < i ==> CheckLine(store, lines[j]).Success?
    requires CheckLine(store, lines[i]).Failure?
    ensures ValidateSpec(store, lines) == Failure(CheckLine(store, lines[i]).error)
  {
    var front := lines[..i];
    assert forall j :: 0 <= j < i ==> front[j] == lines[j];
    CheckBatchPasses(store, front);
    assert lines[..i + 1][..i] == front;
    PrefixFailureDecides(store, lines, i + 1);
  }

  /** An id that cannot be cast, first among the failing lines, fails the
      batch with Mongoose's CastError message. */
  lemma MalformedIdFails(store: Store, lines: seq<Line>, i: nat)
    requires i < |lines| && !IsObjectId(lines[i].productId)
    requires forall j :: 0 <= j < i ==> CheckLine(store, lines[j]).Success?
    ensures ValidateSpec(store, lines) == Failure(CastErrorMessage(lines[i].productId))
  {
    FirstFailingLineDecides(store, lines, i);
  }

  /** A well-formed but unknown product id, first among the failing lines,
      fails the batch with the not-found message naming that id. */
  lemma UnknownProductFails(store: Store, lines: seq<Line>, i: nat)
    requires i < |lines| && IsObjectId(lines[i].productId) && Key(lines[i]) !in store
    requires forall j :: 0 <= j < i ==> CheckLine(store, lines[j]).Success?
    ensures ValidateSpec(store, lines) == Failure("Producto con ID " + lines[i].productId + " no encontrado")
  {
    FirstFailingLineDecides(store, lines, i);
  }

  /** A line asking for more than the pre-batch stock, first among the failing
      lines, fails the batch with a message naming product, stock and request. */
  lemma ShortStockFails(store: Store, lines: seq<Line>, i: nat)
    requires i < |lines| && IsObjectId(lines[i].productId) && Key(lines[i]) in store
    requires store[Key(lines[i])].stock < lines[i].quantity
    requires forall j :: 0 <= j < i ==> CheckLine(store, lines[j]).Success?
    ensures ValidateSpec(store, lines) ==
      Failure(ShortStockMessage(store[Key(lines[i])].name, store[Key(lines[i])].stock, lines[i].quantity))
  {
    FirstFailingLineDecides(store, lines, i);
  }

  /** On success: one processed item per line, in order, carrying the stored
      name and price, the requested quantity and price times quantity; every
      line named a stored product whose pre-batch stock covered it; the total
      is the sum of the subtotals. */
  lemma ValidateSuccess(store: Store, lines: seq<Line>)
    requires ValidateSpec(store, lines).Success?
    ensures var v := ValidateSpec(store, lines).value;
      && v.valid
      && |v.processedItems| == |lines|
      && v.totalPrice == SumSubtotals(v.processedItems)
      && forall j :: 0 <= j < |lines| ==>
           var id := Key(lines[j]);
           && IsObjectId(lines[j].productId)
           && id in store
           && store[id].stock >= lines[j].quantity
           && v.processedItems[j] == ProcessedItem(id, store[id].name, store[id].price, lines[j].quantity, store[id].price * lines[j].quantity)
  {
    CheckBatchPasses(store, lines);
  }

  // ---------------------------------------------------------------------------
  // Properties of the update pass
  // ---------------------------------------------------------------------------

  /** The update pass keeps the set of products and each product's name,
      description and price; it lowers each stock by the total requested for
      that product over the whole batch. */
  lemma {:induction false} ReserveEffect(store: Store, lines: seq<Line>, id: string)
    ensures Reserve(store, lines).Keys == store.Keys
    ensures id in store ==> Reserve(store, lines)[id] == store[id].(stock := store[id].stock - Requested(lines, id))
    decreases |lines|
  {
    if lines != [] {
      ReserveEffect(store, lines[..|lines| - 1], id);
    }
  }

  /** A product that no line names is requested zero times. */
  lemma {:induction false} RequestedUnmentioned(lines: seq<Line>, id: string)
    requires forall j :: 0 <= j < |lines| ==> Key(lines[j]) != id
    ensures Requested(lines, id) == 0
    decreases |lines|
  {
    if lines != [] {
      RequestedUnmentioned(lines[..|lines| - 1], id);
    }
  }

  /** Products the batch does not name come out of the update pass unchanged. */
  lemma UnmentionedUnchanged(store: Store, lines: seq<Line>, id: string)
    requires id in store
    requires forall j :: 0 <= j < |lines| ==> Key(lines[j]) != id
    ensures id in Reserve(store, lines) && Reserve(store, lines)[id] == store[id]
  {
    ReserveEffect(store, lines, id);
    RequestedUnmentioned(lines, id);
  }

  // ---------------------------------------------------------------------------
  // The two defects of the as-written check
  // ---------------------------------------------------------------------------

  lemma LowerUpperHex(c: char)
    requires '0' <= c <= '9' || 'a' <= c <= 'f'
    ensures HexChar(UpperChar(c)) && LowerChar(UpperChar(c)) == c
  {
  }

  /** Lower-case hex digits are well-formed and their own stored spelling. */
  lemma LowerHexCanonical(s: string)
    requires forall k :: 0 <= k < |s| ==> '0' <= s[k] <= '9' || 'a' <= s[k] <= 'f'
    ensures forall k :: 0 <= k < |s| ==> HexChar(s[k])
    ensures Canonical(s) == s
  {
    forall k | 0 <= k < |s|
      ensures HexChar(s[k]) && LowerChar(s[k]) == s[k]
    {
    }
    assert Canonical(s) == s;
  }

  /** Their upper-case spelling is well-formed too, and casts back to them. */
  lemma UpperHexCanonical(s: string)
    requires forall k :: 0 <= k < |s| ==> '0' <= s[k] <= '9' || 'a' <= s[k] <= 'f'
    ensures forall k :: 0 <= k < |s| ==> HexChar(Upper(s)[k])
    ensures Canonical(Upper(s)) == s
  {
    var up := Upper(s);
    forall k | 0 <= k < |s|
      ensures HexChar(up[k]) && LowerChar(up[k]) == s[k]
    {
      assert UpperChar(s[k]) == up[k];
      LowerUpperHex(s[k]);
    }
    assert Canonical(up) == s;
  }

  /** How a stored `_id` prints: 24 hexadecimal digits in lower case. */
  predicate StoredSpelling(id: string) {
    |id| == 24 && forall k :: 0 <= k < |id| ==> '0' <= id[k] <= '9' || 'a' <= id[k] <= 'f'
  }

  /** `findById` casts the hex digits without regard to case: a line naming a
      stored product in upper case passes, and its processed item carries the
      stored spelling. */
  lemma UpperCaseIdFound(id: string, p: Product)
    requires StoredSpelling(id) && p.stock >= 1
    ensures ValidateSpec(map[id := p], [Line(Upper(id), 1)]) ==
      Success(Validation(true, p.price, [ProcessedItem(id, p.name, p.price, 1, p.price)]))
  {
    UpperHexCanonical(id);
    var lines := [Line(Upper(id), 1)];
    assert IsObjectId(Upper(id)) && Key(lines[0]) == id;
    assert lines[..0] == [];
    var item := ProcessedItem(id, p.name, p.price, 1, p.price);
    assert CheckLine(map[id := p], lines[0]) == Success(item);
    assert CheckBatch(map[id := p], lines) == Success([] + [item]);
    assert [item][..0] == [];
    assert SumSubtotals([item]) == p.price;
  }

  /** Each line is checked against the pre-batch stock and repeated ids are
      not summed: two lines of 3 against a stock of 5 both pass, and the
      stock ends at -1. */
  lemma RepeatedLinesOverdraw(id: string, p: Product)
    requires StoredSpelling(id) && p.stock == 5
    ensures var store := map[id := p];
      var lines := [Line(id, 3), Line(id, 3)];
      && ValidateSpec(store, lines).Success?
      && id in Reserve(store, lines) && Reserve(store, lines)[id].stock == -1
  {
    var store := map[id := p];
    var lines := [Line(id, 3), Line(id, 3)];
    LowerHexCanonical(id);
    assert Key(lines[0]) == id && Key(lines[1]) == id;
    assert lines[..1] == [Line(id, 3)] && lines[..1][..0] == [];
    CheckBatchPasses(store, lines);
    assert Requested(lines[..1], id) == 3;
    assert Requested(lines, id) == 6;
    ReserveEffect(store, lines, id);
  }

  /** Quantities are not required to be positive: a line of -4 passes the
      check and raises the stock from 5 to 9. */
  lemma NegativeQuantityRaisesStock(id: string, p: Product)
    requires StoredSpelling(id) && p.stock == 5
    ensures var store := map[id := p];
      var lines := [Line(id, -4)];
      && ValidateSpec(store, lines).Success?
      && id in Reserve(store, lines) && Reserve(store, lines)[id].stock == 9
  {
    var store := map[id := p];
    var lines := [Line(id, -4)];
    LowerHexCanonical(id);
    assert Key(lines[0]) == id;
    assert lines[..0] == [];
    CheckBatchPasses(store, lines);
    assert Requested(lines, id) == -4;
    ReserveEffect(store, lines, id);
  }

  // ---------------------------------------------------------------------------
  // The corrected reservation: each line is a conditional decrement against
  // the stock left by the earlier lines of the batch, quantities must be
  // positive, and a failing line aborts the batch with nothing applied.
  // ---------------------------------------------------------------------------

  function InvalidQuantityMessage(id: string, quantity: int): string {
    "Cantidad no válida para el producto " + id + ": " + IntToString(quantity)
  }

  /** One conditional decrement: the processed item and the store after it. */
  function ReserveLine(store: Store, line: Line): Result<(ProcessedItem, Store), string> {
    if !IsObjectId(line.productId) then Failure(CastErrorMessage(line.productId))
    else if Key(line) !in store then Failure(NotFoundMessage(line.productId))
    else if line.quantity <= 0 then Failure(InvalidQuantityMessage(line.productId, line.quantity))
    else
      var p := store[Key(line)];
      if p.stock < line.quantity then Failure(ShortStockMessage(p.name, p.stock, line.quantity))
      else Success((ProcessedItem(Key(line), p.name, p.price, line.quantity, p.price * line.quantity),
                    ApplyLine(store, line)))
  }

  /** The batch as a sequence of conditional decrements. */
  function ReserveChecked(store: Store, lines: seq<Line>): Result<(seq<ProcessedItem>, Store), string>
    decreases |lines|
  {
    if lines == [] then Success(([], store))
    else
      match ReserveChecked(store, lines[..|lines| - 1])
      case Failure(e) => Failure(e)
      case Success(done) =>
        match ReserveLine(done.1, lines[|lines| - 1])
        case Failure(e) => Failure(e)
        case Success(step) => Success((done.0 + [step.0], step.1))
  }

  predicate NonNegative(store: Store) {
    forall id :: id in store ==> store[id].stock >= 0
  }

  /** The corrected reservation agrees with the as-written code whenever it
      succeeds (same processed items, same final store), never raises a
      stock, and never drives a non-negative stock below zero. */
  lemma {:induction false} ReserveCheckedSound(store: Store, lines: seq<Line>)
    requires ReserveChecked(store, lines).Success?
    ensures CheckBatch(store, lines) == Success(ReserveChecked(store, lines).value.0)
    ensures ReserveChecked(store, lines).value.1 == Reserve(store, lines)
    ensures forall id :: id in store ==> Requested(lines, id) >= 0
    ensures forall id :: id in store && store[id].stock >= 0 ==>
      id in Reserve(store, lines) && Reserve(store, lines)[id].stock >= 0
    decreases |lines|
  {
    if lines != [] {
      var front := lines[..|lines| - 1];
      var last := lines[|lines| - 1];
      ReserveCheckedSound(store, front);
      var mid := Reserve(store, front);
      ReserveEffect(store, front, Key(last));
      // The check pass reads the stored name and price, which the earlier
      // decrements left alone, and the pre-batch stock, which is no lower.
      assert CheckLine(store, last) == Success(ReserveLine(mid, last).value.0);
      forall id | id in store
        ensures Requested(lines, id) >= 0
        ensures store[id].stock >= 0 ==> id in Reserve(store, lines) && Reserve(store, lines)[id].stock >= 0
      {
        ReserveEffect(store, front, id);
        ReserveEffect(store, lines, id);
      }
    }
  }

  /** Corollary: the corrected reservation keeps every stock non-negative. */
  lemma ReserveCheckedKeepsStock(store: Store, lines: seq<Line>)
    requires NonNegative(store) && ReserveChecked(store, lines).Success?
    ensures NonNegative(ReserveChecked(store, lines).value.1)
  {
    ReserveCheckedSound(store, lines);
    forall id | id in ReserveChecked(store, lines).value.1
      ensures ReserveChecked(store, lines).value.1[id].stock >= 0
    {
      ReserveEffect(store, lines, id);
    }
  }

  /** Every line names a stored product by a well-formed id and asks for a
      positive quantity. */
  predicate ValidLines(store: Store, lines: seq<Line>) {
    forall j :: 0 <= j < |lines| ==>
      IsObjectId(lines[j].productId) && Key(lines[j]) in store && lines[j].quantity > 0
  }

  /** For every product the batch asks for, the stock covers the batch's
      total demand for it. */
  predicate DemandFits(store: Store, lines: seq<Line>) {
    forall id :: id in store && Requested(lines, id) > 0 ==> Requested(lines, id) <= store[id].stock
  }

  lemma {:induction false} RequestedGrows(lines: seq<Line>, id: string)
    requires lines != [] && lines[|lines| - 1].quantity > 0
    ensures Requested(lines, id) >= Requested(lines[..|lines| - 1], id)
    ensures Key(lines[|lines| - 1]) == id ==> Requested(lines, id) > Requested(lines[..|lines| - 1], id)
  {
  }

  /** The corrected reservation accepts every batch of valid lines whose
      total demand per product fits the stock. */
  lemma {:induction false} ReserveCheckedComplete(store: Store, lines: seq<Line>)
    requires ValidLines(store, lines) && DemandFits(store, lines)
    ensures ReserveChecked(store, lines).Success?
    decreases |lines|
  {
    if lines != [] {
      var front := lines[..|lines| - 1];
      var last := lines[|lines| - 1];
      assert ValidLines(store, front) by {
        assert forall j :: 0 <= j < |front| ==> front[j] == lines[j];
      }
      forall id | id in store && Requested(front, id) > 0
        ensures Requested(front, id) <= store[id].stock
      {
        RequestedGrows(lines, id);
      }
      ReserveCheckedComplete(store, front);
      ReserveCheckedSound(store, front);
      ReserveEffect(store, front, Key(last));
      RequestedGrows(lines, Key(last));
    }
  }

  /** Conversely, a batch the corrected reservation accepts has valid lines
      and a demand that fits: it never accepts a non-positive quantity. */
  lemma {:induction false} ReserveCheckedValid(store: Store, lines: seq<Line>)
    requires ReserveChecked(store, lines).Success?
    ensures ValidLines(store, lines) && DemandFits(store, lines)
    decreases |lines|
  {
    if lines != [] {
      var front := lines[..|lines| - 1];
      var last := lines[|lines| - 1];
      ReserveCheckedValid(store, front);
      ReserveCheckedSound(store, front);
      ReserveEffect(store, front, Key(last));
      assert forall j :: 0 <= j < |front| ==> front[j] == lines[j];
      forall id | id in store && Requested(lines, id) > 0
        ensures Requested(lines, id) <= store[id].stock
      {
        if id == Key(last) {
          ReserveEffect(store, front, id);
        } else {
          assert Requested(lines, id) == Requested(front, id);
        }
      }
    }
  }

  /** The corrected reservation succeeds exactly for valid lines whose demand fits. */
  lemma ReserveCheckedDecides(store: Store, lines: seq<Line>)
    ensures ReserveChecked(store, lines).Success? <==> ValidLines(store, lines) && DemandFits(store, lines)
  {
    if ReserveChecked(store, lines).Success? {
      ReserveCheckedValid(store, lines);
    } else if ValidLines(store, lines) && DemandFits(store, lines) {
      ReserveCheckedComplete(store, lines);
    }
  }

  // ---------------------------------------------------------------------------
  // The product collection, updated in place
  // ---------------------------------------------------------------------------

  /** The product collection the service reads and updates, keyed by id. */
  class ProductStore {
    var products: Store

    constructor (initial: Store)
      ensures products == initial
    {
      products := initial;
    }

    /** The first loop of `validateStockBatch`: look every line up, stop at the
        first malformed id, unknown id or short stock, collect the processed items and the
        running total. Reads the store only. */
    method CheckPass(lines: seq<Line>) returns (r: Result<Validation, string>)
      ensures r == ValidateSpec(products, lines)
    {
      var processed: seq<ProcessedItem> := [];
      var totalPrice := 0;
      var i := 0;
      while i < |lines|
        invariant 0 <= i <= |lines|
        invariant CheckBatch(products, lines[..i]) == Success(processed)
        invariant totalPrice == SumSubtotals(processed)
      {
        var line := lines[i];
        assert lines[..i + 1][..i] == lines[..i] && lines[..i + 1][i] == line;
        if !IsObjectId(line.productId) {
          PrefixFailureDecides(products, lines, i + 1);
          return Failure(CastErrorMessage(line.productId));
        }
        var key := Canonical(line.productId);
        if key !in products {
          PrefixFailureDecides(products, lines, i + 1);
          return Failure(NotFoundMessage(line.productId));
        }
        var product := products[key];
        if product.stock < line.quantity {
          PrefixFailureDecides(products, lines, i + 1);
          return Failure(ShortStockMessage(product.name, product.stock, line.quantity));
        }
        var item := ProcessedItem(key, product.name, product.price, line.quantity, product.price * line.quantity);
        assert (processed + [item])[..|processed|] == processed;
        processed := processed + [item];
        totalPrice := totalPrice + product.price * line.quantity;
        i := i + 1;
      }
      assert lines[..|lines|] == lines;
      r := Success(Validation(true, totalPrice, processed));
    }

    /** The second loop of `validateStockBatch`: one `$inc` of `-quantity` per line. */
    method UpdatePass(lines: seq<Line>)
      modifies this
      ensures products == Reserve(old(products), lines)
    {
      var i := 0;
      while i < |lines|
        invariant 0 <= i <= |lines|
        invariant products == Reserve(old(products), lines[..i])
      {
        assert lines[..i + 1][..i] == lines[..i];
        products := ApplyLine(products, lines[i]);
        i := i + 1;
      }
      assert lines[..|lines|] == lines;
    }

    /** `validateStockBatch(items)`: the check pass, then, only if every line
        passed, the update pass. A failing batch leaves every product as it was. */
    method ValidateStockBatch(lines: seq<Line>) returns (r: Result<Validation, string>)
      modifies this
      ensures r == ValidateSpec(old(products), lines)
      ensures products == if r.Success? then Reserve(old(products), lines) else old(products)
    {
      r := CheckPass(lines);
      if r.Success? {
        UpdatePass(lines);
      }
    }

    /** The corrected reservation: each line a conditional decrement against
        what the earlier lines left; a failing line restores the snapshot taken
        before the batch. Keeps every stock non-negative. */
    method ReserveBatch(lines: seq<Line>) returns (r: Result<Validation, string>)
      modifies this
      ensures r.Failure? <==> ReserveChecked(old(products), lines).Failure?
      ensures r.Success? ==>
        && products == ReserveChecked(old(products), lines).value.1
        && r.value == Validation(true, SumSubtotals(ReserveChecked(old(products), lines).value.0),
                                 ReserveChecked(old(products), lines).value.0)
      ensures r.Failure? ==> products == old(products) && r.error == ReserveChecked(old(products), lines).error
      ensures NonNegative(old(products)) ==> NonNegative(products)
    {
      var snapshot := products;
      var processed: seq<ProcessedItem> := [];
      var totalPrice := 0;
      var i := 0;
      while i < |lines|
        invariant 0 <= i <= |lines|
        invariant ReserveChecked(snapshot, lines[..i]) == Success((processed, products))
        invariant totalPrice == SumSubtotals(processed)
        invariant snapshot == old(products)
      {
        assert lines[..i + 1][..i] == lines[..i];
        match ReserveLine(products, lines[i]) {
          case Failure(e) =>
            ReserveCheckedPrefixFailure(snapshot, lines, i + 1);
            products := snapshot;
            return Failure(e);
          case Success(step) =>
            assert (processed + [step.0])[..|processed|] == processed;
            processed := processed + [step.0];
            totalPrice := totalPrice + step.0.subtotal;
            products := step.1;
        }
        i := i + 1;
      }
      assert lines[..|lines|] == lines;
      if NonNegative(snapshot) {
        ReserveCheckedKeepsStock(snapshot, lines);
      }
      r := Success(Validation(true, totalPrice, processed));
    }
  }

  /** A failing prefix fails the corrected reservation with the same error. */
  lemma {:induction false} ReserveCheckedPrefixFailure(store: Store, lines: seq<Line>, n: nat)
    requires n <= |lines| && ReserveChecked(store, lines[..n]).Failure?
    ensures ReserveChecked(store, lines) == ReserveChecked(store, lines[..n])
    decreases |lines| - n
  {
    if n < |lines| {
      assert lines[..n + 1][..n] == lines[..n];
      ReserveCheckedPrefixFailure(store, lines, n + 1);
    } else {
      assert lines[..n] == lines;
    }
  }
}
