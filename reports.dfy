/**
 * The report form of the Reports screen: four filter fields, the query
 * parameters built from them when the report is requested, and the rows the
 * backend answers with.
 */
module Reports {
  import opened Wrappers

  /** `reportParams`: the values of the four form controls. */
  datatype ReportForm = ReportForm(supplierId: string, startDate: string, endDate: string, productId: string)

  /** The query parameters of a report request; the product filter may be absent. */
  datatype QueryParams = QueryParams(supplierId: string, startDate: string, endDate: string, productId: Option<string>)

  /** One row of the backend's answer, each column as the text it is shown with. */
  datatype ReportRow = ReportRow(
    supplierName: string, productName: string, unitOfMeasurement: string,
    priceByUnit: string, quantity: string, totalCost: string, deliveryDate: string)

  /** The value of the "all products" option of the product select. */
  const AllProducts: string := ""

  const EmptyForm := ReportForm("", "", "", "")

  /** Supplier, start date and end date carry the `required` attribute, so the
      browser submits the form only when all three are non-empty; product does not. */
  predicate RequiredFilled(form: ReportForm) {
    form.supplierId != "" && form.startDate != "" && form.endDate != ""
  }

  /** The parameter object of `handleGenerateReport`: supplier and dates always
      copied, the product added exactly when it is truthy (non-empty). */
  function BuildParams(form: ReportForm): (q: QueryParams)
    ensures q.supplierId == form.supplierId
    ensures q.startDate == form.startDate
    ensures q.endDate == form.endDate
    ensures q.productId.Some? <==> form.productId != ""
    ensures q.productId.Some? ==> q.productId.value == form.productId
    ensures form.productId == AllProducts ==> q.productId == None
  {
    var params := QueryParams(form.supplierId, form.startDate, form.endDate, None);
    if form.productId != "" then params.(productId := Some(form.productId)) else params
  }

  /** The form a parameter object comes from: an absent product filter is the
      "all products" choice. */
  function FormOf(q: QueryParams): ReportForm {
    ReportForm(q.supplierId, q.startDate, q.endDate, q.productId.GetOr(AllProducts))
  }

  /** Building the parameters loses nothing: the form can be read back from them. */
  lemma FormOfBuildParams(form: ReportForm)
    ensures FormOf(BuildParams(form)) == form
  {
  }

  /** Every parameter object whose product filter, if any, is non-empty is
      built from exactly one form, so distinct forms send distinct queries. */
  lemma BuildParamsOfFormOf(q: QueryParams)
    requires q.productId != Some("")
    ensures BuildParams(FormOf(q)) == q
  {
  }

  /** The component state of the Reports screen. */
  class ReportScreen {
    var reportParams: ReportForm
    var reportData: seq<ReportRow>

    /** The initial state: every field empty, no rows. */
    constructor ()
      ensures reportParams == EmptyForm && reportData == []
    {
      reportParams := EmptyForm;
      reportData := [];
    }

    /** The supplier select: replaces the supplier, keeps the other three fields. */
    method SetSupplierId(value: string)
      modifies this`reportParams
      ensures reportParams.supplierId == value
      ensures reportParams.startDate == old(reportParams.startDate)
      ensures reportParams.endDate == old(reportParams.endDate)
      ensures reportParams.productId == old(reportParams.productId)
    {
      reportParams := reportParams.(supplierId := value);
    }

    /** The start-date input: replaces the start date, keeps the other three fields. */
    method SetStartDate(value: string)
      modifies this`reportParams
      ensures reportParams.startDate == value
      ensures reportParams.supplierId == old(reportParams.supplierId)
      ensures reportParams.endDate == old(reportParams.endDate)
      ensures reportParams.productId == old(reportParams.productId)
    {
      reportParams := reportParams.(startDate := value);
    }

    /** The end-date input: replaces the end date, keeps the other three fields. */
    method SetEndDate(value: string)
      modifies this`reportParams
      ensures reportParams.endDate == value
      ensures reportParams.supplierId == old(reportParams.supplierId)
      ensures reportParams.startDate == old(reportParams.startDate)
      ensures reportParams.productId == old(reportParams.productId)
    {
      reportParams := reportParams.(endDate := value);
    }

    /** The product select: replaces the product, keeps the other three fields. */
    method SetProductId(value: string)
      modifies this`reportParams
      ensures reportParams.productId == value
      ensures reportParams.supplierId == old(reportParams.supplierId)
      ensures reportParams.startDate == old(reportParams.startDate)
      ensures reportParams.endDate == old(reportParams.endDate)
    {
      reportParams := reportParams.(productId := value);
    }

    /** `handleGenerateReport`: builds the query from the form and, given the
        backend's `response` (`None` for a failed request), replaces the rows
        wholesale on success and keeps the previous rows on failure. The form
        itself is never changed. */
    method GenerateReport(response: Option<seq<ReportRow>>) returns (params: QueryParams)
      requires RequiredFilled(reportParams)
      modifies this`reportData
      ensures params == BuildParams(reportParams)
      ensures response.Some? ==> reportData == response.value
      ensures response.None? ==> reportData == old(reportData)
    {
      params := BuildParams(reportParams);
      if response.Some? {
        reportData := response.value;
      }
    }
  }

  /** Choosing "all products" after a specific one drops the product filter
      while the supplier and date range still reach the backend unchanged. */
  method AllProductsDropsFilter(supplierId: string, startDate: string, endDate: string, productId: string)
    returns (params: QueryParams)
    requires supplierId != "" && startDate != "" && endDate != ""
    ensures params == QueryParams(supplierId, startDate, endDate, None)
  {
    var screen := new ReportScreen();
    screen.SetSupplierId(supplierId);
    screen.SetStartDate(startDate);
    screen.SetEndDate(endDate);
    screen.SetProductId(productId);
    screen.SetProductId(AllProducts);
    params := screen.GenerateReport(None);
  }
}
