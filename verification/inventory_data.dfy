/**
 * The inventory page's data: open-ended vehicle records, the dataset the
 * query produces, the bundled fallback records, and the decision
 * `fetchInventory` makes between live and fallback data.
 *
 * The network is replaced by an abstract outcome: either a response with
 * an HTTP status and a body that parses as JSON or not, or a failure that
 * made `fetch` itself throw (network error, the 5-second abort).
 */
module InventoryData {
  import opened Wrappers

  /**
   * A record maps each field name to its value; null and undefined are
   * `None`, any other value is held as the text `String(value)` gives.
   */
  type Record = map<string, Option<string>>

  /** The `_dataSource` tag the page reads for its badge. */
  datatype Source = Api | Fallback

  /** A parsed JSON body, seen through its `data` member (absent when the body has none). */
  datatype Body = Body(items: Option<seq<Record>>)

  /** What the query holds: the records under `data` (if any) and their provenance. */
  datatype Dataset = Dataset(items: Option<seq<Record>>, source: Source)

  /** How the request ended. `body` is `None` when `response.json()` throws. */
  datatype FetchOutcome =
    | Response(status: int, body: Option<Body>)
    | Failed

  /** The fixed query token the page sends. */
  const Token: string := "175grzjKeAfg1OYRKpAmcJ3ebaYZYi9Cn%2FNg2Ht8pDQ"

  /** The path (with its query token) the page requests. */
  const RequestPath: string := "/api/inventory?token=" + Token

  /** The three demonstration vehicles shown when the live request fails. */
  const FallbackData: seq<Record> := [
    map[
      "homenet_vehicle_title" := Some("2023 Chevrolet Silverado 1500 LT"),
      "homenet_eng_description" := Some("6.6L V8 Turbo Diesel"),
      "web_url" := Some("https://example.com/vehicle/1"),
      "homenet_price" := Some("45000"),
      "homenet_model_number" := Some("CK20743")
    ],
    map[
      "homenet_vehicle_title" := Some("2022 Ford F-150 XLT"),
      "homenet_eng_description" := Some("5.0L V8 Coyote"),
      "web_url" := Some("https://example.com/vehicle/2"),
      "homenet_price" := Some("38000"),
      "homenet_model_number" := Some("FD15892")
    ],
    map[
      "homenet_vehicle_title" := Some("2024 Toyota Highlander Limited"),
      "homenet_eng_description" := Some("3.5L V6 Hybrid"),
      "web_url" := Some("https://example.com/vehicle/3"),
      "homenet_price" := Some("52000"),
      "homenet_model_number" := Some("TY98456")
    ]
  ]

  /** `response.ok`: the status lies in the 2xx range. */
  predicate IsOk(status: int) { 200 <= status <= 299 }

  /** The outcome that yields live data: an ok status whose body parsed. */
  predicate Succeeded(o: FetchOutcome)
  {
    o.Response? && IsOk(o.status) && o.body.Some?
  }

  /**
   * `fetchInventory`: never fails. A failed request, a non-ok status and an
   * unparsable body all give the fallback records tagged `Fallback`; an ok
   * response with a parsed body gives that body tagged `Api`.
   */
  function Fetch(o: FetchOutcome): (d: Dataset)
    ensures d.source == Api <==> Succeeded(o)
    ensures d.source == Api ==> d.items == o.body.value.items
    ensures d.source == Fallback ==> d.items == Some(FallbackData) && |d.items.value| == 3
  {
    match o
    case Failed => Dataset(Some(FallbackData), Fallback)
    case Response(status, body) =>
      if !IsOk(status) then Dataset(Some(FallbackData), Fallback)
      else match body
        case None => Dataset(Some(FallbackData), Fallback)
        case Some(b) => Dataset(b.items, Api)
  }

  /** The text of the provenance badge. */
  function BadgeText(d: Dataset): (text: string)
    ensures text == "Live Data" <==> d.source == Api
    ensures text == "Demo Mode" <==> d.source == Fallback
  {
    assert "Live Data"[0] != "Demo Mode"[0];
    match d.source
    case Api => "Live Data"
    case Fallback => "Demo Mode"
  }

  /** The badge after a fetch reads "Live Data" exactly when the request succeeded. */
  lemma BadgeShowsLiveIffSucceeded(o: FetchOutcome)
    ensures BadgeText(Fetch(o)) == "Live Data" <==> Succeeded(o)
  {
  }

  /** `data?.data || []`: the records to search, empty while loading or when the body had no `data`. */
  function LoadedRecords(data: Option<Dataset>): (r: seq<Record>)
    ensures data.None? ==> r == []
    ensures data.Some? && data.value.items.None? ==> r == []
    ensures data.Some? && data.value.items.Some? ==> r == data.value.items.value
  {
    match data
    case None => []
    case Some(d) => if d.items.Some? then d.items.value else []
  }
}
