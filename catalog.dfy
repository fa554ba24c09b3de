/** The product record shared by the catalogue page, the product form and
    the quotation builder. Money and quantities are numbers here; a form
    field left as "" is represented by 0, which is falsy like "". */
module Catalog {
  import opened Wrappers

  /** One purchasable size of a product with its own unit price. */
  datatype Variation = Variation(size: string, basePrice: real)

  /** A flat per-line add-on charge. */
  datatype Fee = Fee(name: string, amount: real)

  /** A shipping-volume rate row. */
  datatype CbmRate = CbmRate(quantity: real, cbm: real)

  /** The `specifications` object; a missing key is `None`. */
  datatype Specs = Specs(
    length: string,
    width: string,
    height: string,
    capacity: string,
    materialType: Option<string>,
    gsm: Option<string>,
    colorOptions: seq<string>,
    printingTechnique: string,
    customFinish: string)

  /** A product record as the backend returns it and as the form edits it;
      `name`, `category` and `specifications` may be missing. */
  datatype Product = Product(
    name: Option<string>,
    price: string,
    moq: int,
    description: string,
    category: Option<string>,
    leadTime: string,
    unit: string,
    image: string,
    increment: int,
    variations: seq<Variation>,
    fees: seq<Fee>,
    cbmRates: seq<CbmRate>,
    specifications: Option<Specs>,
    factoryId: string)

  /** The specifications object filled in when a product has none. */
  const DefaultSpecs: Specs :=
    Specs("", "", "", "", Some(""), Some(""), [], "", "")

  /** The blank rows the form starts with and the add buttons append; "" in
      the form is 0 here. */
  const EmptyVariation: Variation := Variation("", 0.0)
  const EmptyFee: Fee := Fee("", 0.0)
  const EmptyCbmRate: CbmRate := CbmRate(0.0, 0.0)

  /** The form the catalogue page starts with: every text field "", unit
      "pcs", one blank row of each kind and the default specifications. */
  const BlankForm: Product := Product(
    name := Some(""),
    price := "",
    moq := 0,
    description := "",
    category := Some(""),
    leadTime := "",
    unit := "pcs",
    image := "",
    increment := 0,
    variations := [EmptyVariation],
    fees := [EmptyFee],
    cbmRates := [EmptyCbmRate],
    specifications := Some(DefaultSpecs),
    factoryId := "")
}
