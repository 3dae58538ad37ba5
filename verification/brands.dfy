/**
 * The server's `/api/brands` routes: creating a brand, listing a brand's Google
 * integrations, and saving a Google integration. The `brands` and
 * `google_integrations` tables are sequences held by a `BrandStore` object whose
 * methods append to them; a database fault is a parameter of each request.
 */
module Brands {
  import opened Wrappers
  import opened Js

  /** The fields the brand POST reads from its body; a missing body reads as `{}`. */
  datatype BrandBody = BrandBody(name: Option<string>, domain: Option<string>, createdBy: Option<string>)

  /** The row inserted into `brands`; `createdBy` is null when the body had none. */
  datatype BrandRow = BrandRow(name: string, domain: string, createdBy: Option<string>)

  /** The fields the integration POST reads from its body. */
  datatype IntegrationBody = IntegrationBody(
    integrationType: Option<string>, propertyId: Option<string>,
    refreshToken: Option<string>, credentials: Option<string>)

  /** The payload inserted into `google_integrations`; absent optional fields are left out of the payload. */
  datatype IntegrationRow = IntegrationRow(
    brandId: string, integrationType: string, status: string,
    propertyId: Option<string>, refreshToken: Option<string>, credentials: Option<string>)

  /** A database failure: an error the client reports, or an exception. */
  datatype DbFault = Reported(message: string) | Threw

  datatype Body =
    | BrandCreated(brand: BrandRow)
    | IntegrationSaved(integration: IntegrationRow)
    | IntegrationList(integrations: seq<IntegrationRow>)
    | Failure(error: string, details: Option<string>)

  datatype Reply = Reply(status: int, body: Body)

  const NameAndDomainRequired := "name and domain are required"
  const BadIntegrationType := "integration_type must be 'GA4' or 'GSC'"
  const ConnectedStatus := "connected"

  /** `!name || !domain` rejects with 400; otherwise the row to insert, with `created_by ?? null`. */
  function ValidateBrand(body: BrandBody): (r: Result<BrandRow, Reply>)
    ensures r.Err? <==> !Truthy(body.name) || !Truthy(body.domain)
    ensures r.Err? ==> r.error == Reply(400, Failure(NameAndDomainRequired, None))
    ensures r.Ok? ==> r.value == BrandRow(body.name.value, body.domain.value, body.createdBy)
  {
    if !Truthy(body.name) || !Truthy(body.domain) then Err(Reply(400, Failure(NameAndDomainRequired, None)))
    else Ok(BrandRow(body.name.value, body.domain.value, body.createdBy))
  }

  /** Only 'GA4' and 'GSC' are accepted as integration types. */
  function ValidateIntegrationType(t: Option<string>): (r: Result<string, Reply>)
    ensures r.Ok? <==> t == Some("GA4") || t == Some("GSC")
    ensures r.Ok? ==> r.value == t.value
    ensures r.Err? ==> r.error == Reply(400, Failure(BadIntegrationType, None))
  {
    if !Truthy(t) || (t.value != "GA4" && t.value != "GSC") then Err(Reply(400, Failure(BadIntegrationType, None)))
    else Ok(t.value)
  }

  /** A truthy value is kept, anything else is left out. */
  function IfTruthy(o: Option<string>): Option<string> {
    if Truthy(o) then o else None
  }

  /**
   * The integration payload: the brand from the path, the type, status 'connected', and
   * each optional field only when it is truthy.
   */
  method BuildPayload(brandId: string, integrationType: string, body: IntegrationBody) returns (payload: IntegrationRow)
    ensures payload.brandId == brandId && payload.integrationType == integrationType
    ensures payload.status == ConnectedStatus
    ensures payload.propertyId.Some? <==> Truthy(body.propertyId)
    ensures payload.refreshToken.Some? <==> Truthy(body.refreshToken)
    ensures payload.credentials.Some? <==> Truthy(body.credentials)
    ensures payload.propertyId.Some? ==> payload.propertyId == body.propertyId
    ensures payload.refreshToken.Some? ==> payload.refreshToken == body.refreshToken
    ensures payload.credentials.Some? ==> payload.credentials == body.credentials
  {
    payload := IntegrationRow(brandId, integrationType, ConnectedStatus, None, None, None);
    if Truthy(body.propertyId) {
      payload := payload.(propertyId := body.propertyId);
    }
    if Truthy(body.refreshToken) {
      payload := payload.(refreshToken := body.refreshToken);
    }
    if Truthy(body.credentials) {
      payload := payload.(credentials := body.credentials);
    }
  }

  /** The 500 reply for a database fault: the labelled error with the client's message, or 'Internal server error'. */
  function FaultReply(fault: DbFault, caption: string): (r: Reply)
    ensures r.status == 500
    ensures fault.Reported? ==> r.body == Failure(caption, Some(fault.message))
    ensures fault.Threw? ==> r.body == Failure("Internal server error", None)
  {
    match fault
    case Reported(message) => Reply(500, Failure(caption, Some(message)))
    case Threw => Reply(500, Failure("Internal server error", None))
  }

  /** `select('*').eq('brand_id', brandId)`: the brand's integrations, in insertion order. */
  function IntegrationsOf(rows: seq<IntegrationRow>, brandId: string): (r: seq<IntegrationRow>)
    ensures |r| <= |rows|
    ensures forall x | x in r :: x in rows && x.brandId == brandId
    ensures forall x | x in rows && x.brandId == brandId :: x in r
  {
    if rows == [] then []
    else
      var rest := IntegrationsOf(rows[..|rows| - 1], brandId);
      var last := rows[|rows| - 1];
      assert rows == rows[..|rows| - 1] + [last];
      if last.brandId == brandId then rest + [last] else rest
  }

  /** Inserting a row adds it at the end of its own brand's list and changes no other brand's list. */
  lemma IntegrationsOfAppend(rows: seq<IntegrationRow>, row: IntegrationRow, brandId: string)
    ensures IntegrationsOf(rows + [row], brandId) ==
      IntegrationsOf(rows, brandId) + (if row.brandId == brandId then [row] else [])
  {
    assert (rows + [row])[..|rows + [row]| - 1] == rows;
  }

  /** Saving the same integration twice keeps both rows: nothing is updated in place. */
  lemma RepeatedSavesAccumulate(rows: seq<IntegrationRow>, row: IntegrationRow)
    ensures IntegrationsOf(rows + [row] + [row], row.brandId) == IntegrationsOf(rows, row.brandId) + [row, row]
    ensures |IntegrationsOf(rows + [row] + [row], row.brandId)| == |IntegrationsOf(rows, row.brandId)| + 2
  {
    IntegrationsOfAppend(rows, row, row.brandId);
    IntegrationsOfAppend(rows + [row], row, row.brandId);
  }

  /** The two tables of the brand routes. */
  class BrandStore {
    var brands: seq<BrandRow>
    var integrations: seq<IntegrationRow>

    constructor()
      ensures brands == [] && integrations == []
    {
      brands := [];
      integrations := [];
    }

    /** POST /api/brands. */
    method CreateBrand(body: BrandBody, fault: Option<DbFault>) returns (reply: Reply)
      modifies this
      ensures integrations == old(integrations)
      ensures ValidateBrand(body).Err? ==> reply == ValidateBrand(body).error && brands == old(brands)
      ensures ValidateBrand(body).Ok? && fault.Some? ==>
        reply == FaultReply(fault.value, "Failed to create brand") && brands == old(brands)
      ensures ValidateBrand(body).Ok? && fault.None? ==>
        && reply == Reply(200, BrandCreated(ValidateBrand(body).value))
        && brands == old(brands) + [ValidateBrand(body).value]
    {
      var valid := ValidateBrand(body);
      if valid.Err? {
        return valid.error;
      }
      if fault.Some? {
        return FaultReply(fault.value, "Failed to create brand");
      }
      brands := brands + [valid.value];
      reply := Reply(200, BrandCreated(valid.value));
    }

    /** GET /api/brands/:brandId/integrations. */
    method ListIntegrations(brandId: string, fault: Option<DbFault>) returns (reply: Reply)
      ensures fault.Some? ==> reply == FaultReply(fault.value, "Failed to list integrations")
      ensures fault.None? ==> reply == Reply(200, IntegrationList(IntegrationsOf(integrations, brandId)))
    {
      if fault.Some? {
        return FaultReply(fault.value, "Failed to list integrations");
      }
      reply := Reply(200, IntegrationList(IntegrationsOf(integrations, brandId)));
    }

    /** POST /api/brands/:brandId/integrations/google: always a new row. */
    method SaveIntegration(brandId: string, body: IntegrationBody, fault: Option<DbFault>) returns (reply: Reply)
      modifies this
      ensures brands == old(brands)
      ensures ValidateIntegrationType(body.integrationType).Err? ==>
        reply == ValidateIntegrationType(body.integrationType).error && integrations == old(integrations)
      ensures ValidateIntegrationType(body.integrationType).Ok? && fault.Some? ==>
        reply == FaultReply(fault.value, "Failed to save Google integration") && integrations == old(integrations)
      ensures ValidateIntegrationType(body.integrationType).Ok? && fault.None? ==>
        && |integrations| == |old(integrations)| + 1
        && integrations[..|old(integrations)|] == old(integrations)
        && reply == Reply(200, IntegrationSaved(integrations[|old(integrations)|]))
        && integrations[|old(integrations)|] == IntegrationRow(brandId, body.integrationType.value, ConnectedStatus,
             IfTruthy(body.propertyId), IfTruthy(body.refreshToken), IfTruthy(body.credentials))
    {
      var kind := ValidateIntegrationType(body.integrationType);
      if kind.Err? {
        return kind.error;
      }
      var payload := BuildPayload(brandId, kind.value, body);
      if fault.Some? {
        return FaultReply(fault.value, "Failed to save Google integration");
      }
      integrations := integrations + [payload];
      reply := Reply(200, IntegrationSaved(payload));
    }
  }
}
