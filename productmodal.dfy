/** The product form's list editors: add, remove and change rows of the
    variations, fees and CBM rates, each building the next form from the
    current one and leaving every other form field as it was. */
module ProductModal {
  import opened Catalog
  import Lists

  /** `newRows[index][field] = value` for each kind of row. */
  datatype VariationEdit = SetSize(size: string) | SetBasePrice(basePrice: real)
  datatype FeeEdit = SetName(name: string) | SetAmount(amount: real)
  datatype CbmRateEdit = SetQuantity(quantity: real) | SetCbm(cbm: real)

  function ApplyVariationEdit(v: Variation, edit: VariationEdit): Variation {
    match edit
    case SetSize(size) => v.(size := size)
    case SetBasePrice(price) => v.(basePrice := price)
  }

  function ApplyFeeEdit(f: Fee, edit: FeeEdit): Fee {
    match edit
    case SetName(name) => f.(name := name)
    case SetAmount(amount) => f.(amount := amount)
  }

  function ApplyCbmRateEdit(c: CbmRate, edit: CbmRateEdit): CbmRate {
    match edit
    case SetQuantity(quantity) => c.(quantity := quantity)
    case SetCbm(cbm) => c.(cbm := cbm)
  }

  // Variations

  function AddVariation(form: Product): (r: Product)
    ensures |r.variations| == |form.variations| + 1
    ensures r.variations[..|form.variations|] == form.variations
    ensures r.variations[|form.variations|] == EmptyVariation
    ensures r.(variations := form.variations) == form
  {
    form.(variations := form.variations + [EmptyVariation])
  }

  function RemoveVariation(form: Product, index: int): (r: Product)
    ensures r.(variations := form.variations) == form
    ensures 0 <= index < |form.variations| ==>
      r.variations == form.variations[..index] + form.variations[index + 1..]
    ensures !(0 <= index < |form.variations|) ==> r == form
  {
    Lists.WithoutFromIsCut(form.variations, index, 0);
    form.(variations := Lists.Without(form.variations, index))
  }

  function ChangeVariation(form: Product, index: nat, edit: VariationEdit): (r: Product)
    requires index < |form.variations|
    ensures |r.variations| == |form.variations|
    ensures forall i :: 0 <= i < |form.variations| && i != index ==> r.variations[i] == form.variations[i]
    ensures r.variations[index] == ApplyVariationEdit(form.variations[index], edit)
    ensures r.(variations := form.variations) == form
  {
    form.(variations := form.variations[index := ApplyVariationEdit(form.variations[index], edit)])
  }

  /** Adding a variation and removing the last one gives back the form. */
  lemma AddThenRemoveVariation(form: Product)
    ensures RemoveVariation(AddVariation(form), |form.variations|) == form
  {
    Lists.AppendThenWithoutLast(form.variations, EmptyVariation);
  }

  // Fees

  function AddFee(form: Product): (r: Product)
    ensures |r.fees| == |form.fees| + 1
    ensures r.fees[..|form.fees|] == form.fees
    ensures r.fees[|form.fees|] == EmptyFee
    ensures r.(fees := form.fees) == form
  {
    form.(fees := form.fees + [EmptyFee])
  }

  function RemoveFee(form: Product, index: int): (r: Product)
    ensures r.(fees := form.fees) == form
    ensures 0 <= index < |form.fees| ==> r.fees == form.fees[..index] + form.fees[index + 1..]
    ensures !(0 <= index < |form.fees|) ==> r == form
  {
    Lists.WithoutFromIsCut(form.fees, index, 0);
    form.(fees := Lists.Without(form.fees, index))
  }

  function ChangeFee(form: Product, index: nat, edit: FeeEdit): (r: Product)
    requires index < |form.fees|
    ensures |r.fees| == |form.fees|
    ensures forall i :: 0 <= i < |form.fees| && i != index ==> r.fees[i] == form.fees[i]
    ensures r.fees[index] == ApplyFeeEdit(form.fees[index], edit)
    ensures r.(fees := form.fees) == form
  {
    form.(fees := form.fees[index := ApplyFeeEdit(form.fees[index], edit)])
  }

  /** Adding a fee and removing the last one gives back the form. */
  lemma AddThenRemoveFee(form: Product)
    ensures RemoveFee(AddFee(form), |form.fees|) == form
  {
    Lists.AppendThenWithoutLast(form.fees, EmptyFee);
  }

  // CBM rates

  function AddCbmRate(form: Product): (r: Product)
    ensures |r.cbmRates| == |form.cbmRates| + 1
    ensures r.cbmRates[..|form.cbmRates|] == form.cbmRates
    ensures r.cbmRates[|form.cbmRates|] == EmptyCbmRate
    ensures r.(cbmRates := form.cbmRates) == form
  {
    form.(cbmRates := form.cbmRates + [EmptyCbmRate])
  }

  function RemoveCbmRate(form: Product, index: int): (r: Product)
    ensures r.(cbmRates := form.cbmRates) == form
    ensures 0 <= index < |form.cbmRates| ==>
      r.cbmRates == form.cbmRates[..index] + form.cbmRates[index + 1..]
    ensures !(0 <= index < |form.cbmRates|) ==> r == form
  {
    Lists.WithoutFromIsCut(form.cbmRates, index, 0);
    form.(cbmRates := Lists.Without(form.cbmRates, index))
  }

  function ChangeCbmRate(form: Product, index: nat, edit: CbmRateEdit): (r: Product)
    requires index < |form.cbmRates|
    ensures |r.cbmRates| == |form.cbmRates|
    ensures forall i :: 0 <= i < |form.cbmRates| && i != index ==> r.cbmRates[i] == form.cbmRates[i]
    ensures r.cbmRates[index] == ApplyCbmRateEdit(form.cbmRates[index], edit)
    ensures r.(cbmRates := form.cbmRates) == form
  {
    form.(cbmRates := form.cbmRates[index := ApplyCbmRateEdit(form.cbmRates[index], edit)])
  }

  /** Adding a CBM rate and removing the last one gives back the form. */
  lemma AddThenRemoveCbmRate(form: Product)
    ensures RemoveCbmRate(AddCbmRate(form), |form.cbmRates|) == form
  {
    Lists.AppendThenWithoutLast(form.cbmRates, EmptyCbmRate);
  }

  /** A change sets one field of one row and keeps the row's other field. */
  lemma EditsTouchOneField(v: Variation, f: Fee, c: CbmRate, s: string, x: real)
    ensures ApplyVariationEdit(v, SetSize(s)).basePrice == v.basePrice
    ensures ApplyVariationEdit(v, SetBasePrice(x)).size == v.size
    ensures ApplyFeeEdit(f, SetName(s)).amount == f.amount
    ensures ApplyFeeEdit(f, SetAmount(x)).name == f.name
    ensures ApplyCbmRateEdit(c, SetQuantity(x)).cbm == c.cbm
    ensures ApplyCbmRateEdit(c, SetCbm(x)).quantity == c.quantity
  {
  }
}
