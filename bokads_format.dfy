/**
 * The pieces of BOKads signal normalisation that the Vercel search function
 * (api/bokads/search.js) and the Express proxy (bokads-proxy.js) write
 * identically: the coverage and CPM columns, the default description, the
 * count message and the generated context id.
 */
module BokadsFormat {
  import opened Wrappers
  import opened Js

  const Unknown: string := "Unknown"
  const Source: string := "BOKads"

  /**
   * `signal.coverage_percentage ? `${signal.coverage_percentage.toFixed(1)}%` : 'Unknown'`.
   * A truthy value that is not a number has no toFixed method: the call throws.
   */
  function Coverage(value: Option<Json>): (r: Result<string>)
    ensures r.Err? <==> Truthy(value) && !value.value.Num?
    ensures r.Ok? ==> (r.value == Unknown <==> !Truthy(value))
    ensures r.Ok? && Truthy(value) ==> r.value == ToFixed(value.value.n, 1) + "%"
  {
    if !Truthy(value) then Ok(Unknown)
    else if value.value.Num? then
      var text := ToFixed(value.value.n, 1) + "%";
      assert text[|text| - 1] != Unknown[|Unknown| - 1];
      Ok(text)
    else Err("signal.coverage_percentage.toFixed is not a function")
  }

  /** `signal.pricing?.cpm ? `$${signal.pricing.cpm.toFixed(2)}` : 'Unknown'`, given `signal.pricing`. */
  function Cpm(pricing: Option<Json>): (r: Result<string>)
    ensures var cpm := Property(pricing, "cpm");
      && (r.Err? <==> Truthy(cpm) && !cpm.value.Num?)
      && (r.Ok? ==> (r.value == Unknown <==> !Truthy(cpm)))
      && (r.Ok? && Truthy(cpm) ==> r.value == "$" + ToFixed(cpm.value.n, 2))
  {
    var cpm := Property(pricing, "cpm");
    if !Truthy(cpm) then Ok(Unknown)
    else if cpm.value.Num? then
      var text := "$" + ToFixed(cpm.value.n, 2);
      assert text[0] != Unknown[0];
      Ok(text)
    else Err("signal.pricing.cpm.toFixed is not a function")
  }

  /** `BOKads segment for ${spec} targeting` */
  function DefaultDescription(spec: string): string
  {
    "BOKads segment for " + spec + " targeting"
  }

  /** `Found ${count} real BOKads signals for "${spec}"` */
  function FoundMessage(count: nat, spec: string): string
  {
    "Found " + NatToString(count) + " real BOKads signals for \"" + spec + "\""
  }

  /**
   * A context id: one taken from upstream, or one the handler generates as
   * `ctx_<clock>_<suffix>`; the clock reading is not modelled.
   */
  datatype ContextId = Supplied(value: Json) | Generated(suffix: string)
}
