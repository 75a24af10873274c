/** Policy bundles: validation, and the evaluator against a declarative deny-overrides rule. */
module PolicyEvaluator {
  import opened Options

  const ZERO_TIME := 0
  const SECOND := 1_000_000_000

  datatype Constraints = Constraints(
    effect: string, externalRole: string, resourceType: string, resourceId: string, attributes: map<string, string>,
    dataLabels: seq<string>, detailLevels: seq<string>, acr: string, amr: seq<string>, maxAge: Option<int>)

  datatype Capability = Capability(id: string, operation: string, scope: string, actors: seq<string>)

  datatype Grant = Grant(
    constraints: Option<Constraints>, id: string, capability: string, tenant: string, subject: string, service: string,
    organization: string, validFrom: int, validUntil: int)

  datatype Bundle = Bundle(id: string, version: int, publishedAt: int, capabilities: seq<Capability>,
                           grants: seq<Grant>)

  datatype Claims = Claims(roles: seq<string>, acr: string, amr: seq<string>, authenticatedAt: int)
  datatype Principal = Principal(id: string, tenant: string, service: string, actor: string, scopes: seq<string>,
                                 claims: Option<Claims>)
  datatype Resource = Resource(tenant: string, organization: string, kind: string, id: string,
                               attributes: map<string, string>)

  /** Everything an evaluation depends on besides the bundle. */
  datatype Query = Query(principal: Principal, resource: Resource, capability: string, operation: string, now: int)

  datatype Decision = Decision(
    allowed: bool, bundleId: string, version: int, capability: string, code: string, scope: map<string, string>,
    detail: string)

  // ---- Validation.

  predicate ValidConstraints(c: Constraints) {
    && (c.effect == "" || c.effect == "ALLOW" || c.effect == "DENY")
    && |c.attributes| <= 64 && |c.dataLabels| <= 64 && |c.detailLevels| <= 16 && |c.amr| <= 32
    && (c.maxAge.Some? ==> 1 <= c.maxAge.value <= 86400)
  }

  predicate ValidCapability(c: Capability) { c.id != "" && c.operation != "" && c.scope != "" }

  predicate ValidGrant(g: Grant) {
    && (g.constraints.Some? ==> ValidConstraints(g.constraints.value))
    && g.id != "" && g.capability != "" && g.tenant != "" && g.validFrom != ZERO_TIME && g.validUntil != ZERO_TIME
    && g.validUntil > g.validFrom
    && (g.subject != "" || g.service != "" || (g.constraints.Some? && g.constraints.value.externalRole != ""))
  }

  /** Complete descriptors and grants, unique ids, and grants only for declared capabilities. */
  predicate ValidBundle(b: Bundle) {
    && b.id != "" && b.version >= 1 && b.publishedAt != ZERO_TIME && |b.capabilities| <= 10000 && |b.grants| <= 10000
    && (forall i :: 0 <= i < |b.capabilities| ==> ValidCapability(b.capabilities[i]))
    && (forall i, j :: 0 <= i < j < |b.capabilities| ==> b.capabilities[i].id != b.capabilities[j].id)
    && (forall i :: 0 <= i < |b.grants| ==> ValidGrant(b.grants[i]) && Declares(b, b.grants[i].capability))
    && (forall i, j :: 0 <= i < j < |b.grants| ==> b.grants[i].id != b.grants[j].id)
  }

  predicate Declares(b: Bundle, capability: string) {
    exists i :: 0 <= i < |b.capabilities| && b.capabilities[i].id == capability
  }

  method ValidateConstraints(c: Constraints) returns (ok: bool)
    ensures ok <==> ValidConstraints(c)
  {
    if c.effect != "" && c.effect != "ALLOW" && c.effect != "DENY" {
      return false;
    }
    if |c.attributes| > 64 || |c.dataLabels| > 64 || |c.detailLevels| > 16 || |c.amr| > 32 {
      return false;
    }
    if c.maxAge.Some? && (c.maxAge.value < 1 || c.maxAge.value > 86400) {
      return false;
    }
    return true;
  }

  method Validate(b: Bundle) returns (ok: bool)
    ensures ok <==> ValidBundle(b)
  {
    hide ValidConstraints;
    if b.id == "" || b.version < 1 || b.publishedAt == ZERO_TIME || |b.capabilities| > 10000 || |b.grants| > 10000 {
      return false;
    }
    var caps, seen := {}, {};
    for i := 0 to |b.capabilities|
      invariant caps == set j | 0 <= j < i :: b.capabilities[j].id
      invariant forall j :: 0 <= j < i ==> ValidCapability(b.capabilities[j])
      invariant forall j, k :: 0 <= j < k < i ==> b.capabilities[j].id != b.capabilities[k].id
    {
      var c := b.capabilities[i];
      if c.id in caps {
        return false;
      }
      caps := caps + {c.id};
      if c.id == "" || c.operation == "" || c.scope == "" {
        return false;
      }
    }
    for i := 0 to |b.grants|
      invariant caps == set j | 0 <= j < |b.capabilities| :: b.capabilities[j].id
      invariant seen == set j | 0 <= j < i :: b.grants[j].id
      invariant forall j :: 0 <= j < i ==> ValidGrant(b.grants[j]) && Declares(b, b.grants[j].capability)
      invariant forall j, k :: 0 <= j < k < i ==> b.grants[j].id != b.grants[k].id
    {
      var g := b.grants[i];
      if g.id in seen || g.capability !in caps {
        return false;
      }
      seen := seen + {g.id};
      if g.constraints.Some? {
        var sound := ValidateConstraints(g.constraints.value);
        if !sound {
          return false;
        }
      }
      if g.id == "" || g.capability == "" || g.tenant == "" || g.validFrom == ZERO_TIME || g.validUntil == ZERO_TIME ||
         g.validUntil <= g.validFrom {
        return false;
      }
      if g.subject == "" && g.service == "" && (g.constraints.None? || g.constraints.value.externalRole == "") {
        return false;
      }
    }
    return true;
  }

  // ---- The declarative rule.

  function Attribute(r: Resource, key: string): string {
    if key in r.attributes then r.attributes[key] else ""
  }

  predicate Matches(c: Constraints, q: Query) {
    var claims := q.principal.claims;
    && (c.externalRole != "" ==> claims.Some? && c.externalRole in claims.value.roles)
    && (c.resourceType != "" ==> c.resourceType == q.resource.kind)
    && (c.resourceId != "" ==> c.resourceId == q.resource.id)
    && (forall k :: k in c.attributes ==> k in q.resource.attributes && q.resource.attributes[k] == c.attributes[k])
    && (|c.dataLabels| > 0 ==> Attribute(q.resource, "dataAccessLabel") in c.dataLabels)
    && (|c.detailLevels| > 0 ==> Attribute(q.resource, "detailLevel") in c.detailLevels)
    && (c.acr != "" ==> claims.Some? && claims.value.acr == c.acr)
    && (forall i :: 0 <= i < |c.amr| ==> claims.Some? && c.amr[i] in claims.value.amr)
    && (c.maxAge.Some? ==>
          && claims.Some? && claims.value.authenticatedAt != ZERO_TIME && claims.value.authenticatedAt <= q.now
          && q.now < claims.value.authenticatedAt + c.maxAge.value * SECOND)
  }

  /** The grant speaks about this query. */
  predicate Applies(g: Grant, q: Query) {
    && g.capability == q.capability && g.tenant == q.principal.tenant && g.validFrom <= q.now < g.validUntil
    && (g.organization != "" ==> g.organization == q.resource.organization)
    && (g.subject != "" ==> g.subject == q.principal.id)
    && (g.service != "" ==> g.service == q.principal.service)
    && (g.constraints.Some? ==> Matches(g.constraints.value, q))
  }

  predicate IsDeny(g: Grant) { g.constraints.Some? && g.constraints.value.effect == "DENY" }

  predicate Denies(g: Grant, q: Query) { Applies(g, q) && IsDeny(g) }

  /** The grant covers the data label and the detail level asked for. */
  predicate Permits(g: Grant, q: Query) {
    var data, detail := Attribute(q.resource, "dataAccessLabel"), Attribute(q.resource, "detailLevel");
    && Applies(g, q)
    && (data == "" || data == "OPEN" || data == "ANONYMOUS" ||
        (g.constraints.Some? && data in g.constraints.value.dataLabels))
    && (detail == "" || detail == "PUBLIC_OPERATIONAL" ||
        (g.constraints.Some? && detail in g.constraints.value.detailLevels))
  }

  predicate Described(c: Capability, q: Query) { c.id == q.capability && c.operation == q.operation }

  /** Why the query is refused before any grant is looked at, if it is. */
  function Gate(c: Capability, q: Query): Option<string> {
    if q.principal.actor !in c.actors then Some("ACTOR_NOT_ALLOWED")
    else if c.scope !in q.principal.scopes then Some("SCOPE_MISSING")
    else if Attribute(q.resource, "requiresDataAccessLabel") == "true" &&
            Attribute(q.resource, "dataAccessLabel") == "" then
      Some("DATA_LABEL_REQUIRED")
    else if Attribute(q.resource, "detailLevel") == "SECURITY_SENSITIVE" && q.principal.actor != "HUMAN" then
      Some("HUMAN_REQUIRED")
    else None
  }

  /** The outcome code: deny overrides allow, and no applicable grant means refusal. */
  predicate Rules(b: Bundle, q: Query, code: string) {
    if q.principal.tenant == "" || q.principal.tenant != q.resource.tenant then code == "TENANT_MISMATCH"
    else if forall c :: c in b.capabilities ==> !Described(c, q) then code == "CAPABILITY_NOT_DECLARED"
    else
      exists c :: c in b.capabilities && Described(c, q) &&
        if Gate(c, q).Some? then code == Gate(c, q).value
        else if exists g :: g in b.grants && Denies(g, q) then code == "EXPLICIT_DENY"
        else if exists g :: g in b.grants && Permits(g, q) then code == "ALLOW"
        else code == "NO_APPLICABLE_GRANT"
  }

  function ScopeOf(r: Resource): map<string, string> {
    var scope := map["tenantId" := r.tenant, "resourceType" := r.kind];
    var scope := if r.id != "" then scope["resourceId" := r.id] else scope;
    scope + map k | k in r.attributes && k in {"module", "sourceRef", "jobRef", "dataAccessLabel"} :: r.attributes[k]
  }

  /** The whole decision that goes with an outcome code. */
  function Answer(b: Bundle, q: Query, code: string): Decision {
    if code != "ALLOW" then Decision(false, b.id, b.version, q.capability, code, map[], "")
    else
      var detail := Attribute(q.resource, "detailLevel");
      Decision(true, b.id, b.version, q.capability, code, ScopeOf(q.resource),
               if detail == "" then "PUBLIC_OPERATIONAL" else detail)
  }

  // ---- What a decision means, field by field.

  /** The capability is the one asked for, open to this kind of actor, and within the principal's scopes; a required
      data label is given, and security-sensitive detail is for people only. */
  predicate Opens(c: Capability, q: Query) {
    && c.id == q.capability && c.operation == q.operation
    && q.principal.actor in c.actors && c.scope in q.principal.scopes
    && (TextOf(q, "requiresDataAccessLabel") == "true" ==> TextOf(q, "dataAccessLabel") != "")
    && (TextOf(q, "detailLevel") == "SECURITY_SENSITIVE" ==> q.principal.actor == "HUMAN")
  }

  /** A resource attribute, empty when absent. */
  function TextOf(q: Query, key: string): (text: string)
    ensures key in q.resource.attributes ==> text == q.resource.attributes[key]
    ensures key !in q.resource.attributes ==> text == ""
  {
    Attribute(q.resource, key)
  }

  /** The grant is for this capability and tenant, in force now, and names nobody and nothing else. */
  predicate Concerns(g: Grant, q: Query) {
    && g.capability == q.capability && g.tenant == q.principal.tenant && g.validFrom <= q.now && q.now < g.validUntil
    && (g.organization == "" || g.organization == q.resource.organization)
    && (g.subject == "" || g.subject == q.principal.id) && (g.service == "" || g.service == q.principal.service)
    && (g.constraints == None || Meets(g.constraints.value, q))
  }

  /** Every constraint that is set is met, by the resource and by how the principal authenticated. */
  predicate Meets(c: Constraints, q: Query) {
    && (c.resourceType == "" || c.resourceType == q.resource.kind)
    && (c.resourceId == "" || c.resourceId == q.resource.id)
    && (forall k :: k in c.attributes ==> k in q.resource.attributes && q.resource.attributes[k] == c.attributes[k])
    && (c.dataLabels == [] || TextOf(q, "dataAccessLabel") in c.dataLabels)
    && (c.detailLevels == [] || TextOf(q, "detailLevel") in c.detailLevels)
    && (c.externalRole != "" || c.acr != "" || c.amr != [] || c.maxAge.Some? ==>
          && q.principal.claims.Some?
          && var claims := q.principal.claims.value;
             && (c.externalRole == "" || c.externalRole in claims.roles) && (c.acr == "" || c.acr == claims.acr)
             && (forall m :: m in c.amr ==> m in claims.amr)
             && (c.maxAge.Some? ==>
                   && claims.authenticatedAt != 0
                   && 0 <= q.now - claims.authenticatedAt < c.maxAge.value * 1_000_000_000))
  }

  /** The grant lists the data label and the detail level asked for, unless they are open to all. */
  predicate Covers(g: Grant, q: Query) {
    && Concerns(g, q)
    && (TextOf(q, "dataAccessLabel") in {"", "OPEN", "ANONYMOUS"} ||
        (g.constraints.Some? && TextOf(q, "dataAccessLabel") in g.constraints.value.dataLabels))
    && (TextOf(q, "detailLevel") in {"", "PUBLIC_OPERATIONAL"} ||
        (g.constraints.Some? && TextOf(q, "detailLevel") in g.constraints.value.detailLevels))
  }

  predicate Forbids(g: Grant, q: Query) {
    Concerns(g, q) && g.constraints.Some? && g.constraints.value.effect == "DENY"
  }

  predicate SameTenant(q: Query) { q.principal.tenant != "" && q.principal.tenant == q.resource.tenant }

  /** Why the capability asked for does not open, the first reason in the order actor, scope, label, person. */
  predicate Closes(c: Capability, q: Query, code: string) {
    && c.id == q.capability && c.operation == q.operation
    && (q.principal.actor !in c.actors <==> code == "ACTOR_NOT_ALLOWED")
    && (code == "SCOPE_MISSING" ==> c.scope !in q.principal.scopes)
    && (code in {"DATA_LABEL_REQUIRED", "HUMAN_REQUIRED"} ==> c.scope in q.principal.scopes)
    && (code == "DATA_LABEL_REQUIRED" ==>
          TextOf(q, "requiresDataAccessLabel") == "true" && TextOf(q, "dataAccessLabel") == "")
    && (code == "HUMAN_REQUIRED" ==>
          q.principal.actor != "HUMAN" && TextOf(q, "detailLevel") == "SECURITY_SENSITIVE" &&
          (TextOf(q, "requiresDataAccessLabel") == "true" ==> TextOf(q, "dataAccessLabel") != ""))
  }

  /** The refusal names what stood in the way. */
  predicate Explains(b: Bundle, q: Query, code: string) {
    && (code == "TENANT_MISMATCH" <==> !SameTenant(q))
    && (code == "CAPABILITY_NOT_DECLARED" ==>
          forall c :: c in b.capabilities ==> c.id != q.capability || c.operation != q.operation)
    && (code in {"ACTOR_NOT_ALLOWED", "SCOPE_MISSING", "DATA_LABEL_REQUIRED", "HUMAN_REQUIRED"} ==>
          exists c :: c in b.capabilities && Closes(c, q, code))
    && (code == "EXPLICIT_DENY" ==> exists g :: g in b.grants && Forbids(g, q))
    && (code == "NO_APPLICABLE_GRANT" ==> forall g :: g in b.grants ==> !Covers(g, q))
    && code in {"TENANT_MISMATCH", "CAPABILITY_NOT_DECLARED", "ACTOR_NOT_ALLOWED", "SCOPE_MISSING",
                "DATA_LABEL_REQUIRED", "HUMAN_REQUIRED", "EXPLICIT_DENY", "NO_APPLICABLE_GRANT", "ALLOW"}
  }

  /** What the caller is handed: nothing on a refusal, and otherwise the resource it may see and how much of it. */
  ghost predicate Discloses(b: Bundle, q: Query, d: Decision) {
    && d.bundleId == b.id && d.version == b.version && d.capability == q.capability && d.allowed == (d.code == "ALLOW")
    && (!d.allowed ==> d.scope == map[] && d.detail == "")
    && (d.allowed ==>
          && d.detail == (if TextOf(q, "detailLevel") == "" then "PUBLIC_OPERATIONAL" else TextOf(q, "detailLevel"))
          && "tenantId" in d.scope && d.scope["tenantId"] == q.resource.tenant
          && "resourceType" in d.scope && d.scope["resourceType"] == q.resource.kind
          && ("resourceId" in d.scope <==> q.resource.id != "")
          && ("resourceId" in d.scope ==> d.scope["resourceId"] == q.resource.id)
          && forall k :: k !in {"tenantId", "resourceType", "resourceId"} ==>
               && (k in d.scope <==>
                     k in {"module", "sourceRef", "jobRef", "dataAccessLabel"} && k in q.resource.attributes)
               && (k in d.scope ==> d.scope[k] == q.resource.attributes[k]))
  }

  lemma GateOpens(c: Capability, q: Query)
    requires Described(c, q)
    ensures Opens(c, q) <==> Gate(c, q).None?
    ensures Gate(c, q).Some? ==> Closes(c, q, Gate(c, q).value)
    ensures Gate(c, q).Some? ==>
              Gate(c, q).value in {"ACTOR_NOT_ALLOWED", "SCOPE_MISSING", "DATA_LABEL_REQUIRED", "HUMAN_REQUIRED"}
  {
  }

  lemma MatchesMeans(c: Constraints, q: Query)
    ensures Matches(c, q) <==> Meets(c, q)
  {
    assert forall i :: 0 <= i < |c.amr| ==> c.amr[i] in c.amr;
    if Matches(c, q) && c.amr != [] {
      assert q.principal.claims.Some? && c.amr[0] in q.principal.claims.value.amr;
    }
  }

  lemma GrantMeans(g: Grant, q: Query)
    ensures (Denies(g, q) <==> Forbids(g, q)) && (Permits(g, q) <==> Covers(g, q))
  {
    hide Matches, Meets;
    if g.constraints.Some? {
      MatchesMeans(g.constraints.value, q);
    }
  }

  /** The rule in plain terms: who is allowed, and why anyone else is not. */
  lemma RulesMean(b: Bundle, q: Query, code: string)
    requires Rules(b, q, code)
    ensures Explains(b, q, code)
    ensures code == "ALLOW" ==>
              && SameTenant(q) && (exists c :: c in b.capabilities && Opens(c, q))
              && (exists g :: g in b.grants && Covers(g, q)) && forall g :: g in b.grants ==> !Forbids(g, q)
    ensures && SameTenant(q) && (exists c :: c in b.capabilities && Described(c, q))
            && (forall c :: c in b.capabilities && Described(c, q) ==> Opens(c, q))
            && (exists g :: g in b.grants && Covers(g, q)) && (forall g :: g in b.grants ==> !Forbids(g, q)) ==>
              code == "ALLOW"
  {
    hide Denies, Permits, Gate, Opens, Covers, Forbids, Closes;
    forall c | c in b.capabilities && Described(c, q)
      ensures Opens(c, q) <==> Gate(c, q).None?
    {
      GateOpens(c, q);
    }
    forall g | g in b.grants
      ensures (Denies(g, q) <==> Forbids(g, q)) && (Permits(g, q) <==> Covers(g, q))
    {
      GrantMeans(g, q);
    }
    if SameTenant(q) && exists c :: c in b.capabilities && Described(c, q) {
      var c :| c in b.capabilities && Described(c, q) &&
        if Gate(c, q).Some? then code == Gate(c, q).value
        else if exists g :: g in b.grants && Denies(g, q) then code == "EXPLICIT_DENY"
        else if exists g :: g in b.grants && Permits(g, q) then code == "ALLOW"
        else code == "NO_APPLICABLE_GRANT";
      GateOpens(c, q);
    }
  }

  lemma AnswerDiscloses(b: Bundle, q: Query, code: string)
    ensures Discloses(b, q, Answer(b, q, code))
  {
  }

  // ---- The evaluator.

  method FindCapability(b: Bundle, q: Query) returns (found: Option<Capability>)
    ensures found.None? ==> forall c :: c in b.capabilities ==> !Described(c, q)
    ensures found.Some? ==> found.value in b.capabilities && Described(found.value, q)
  {
    for i := 0 to |b.capabilities|
      invariant forall j :: 0 <= j < i ==> !Described(b.capabilities[j], q)
    {
      if b.capabilities[i].id == q.capability && b.capabilities[i].operation == q.operation {
        return Some(b.capabilities[i]);
      }
    }
    return None;
  }

  /** Walk the grants in order, stopping at the first that denies. */
  method WalkGrants(grants: seq<Grant>, q: Query) returns (code: string)
    ensures code == if exists g :: g in grants && Denies(g, q) then "EXPLICIT_DENY"
                    else if exists g :: g in grants && Permits(g, q) then "ALLOW"
                    else "NO_APPLICABLE_GRANT"
  {
    hide Matches;
    var data, detail := Attribute(q.resource, "dataAccessLabel"), Attribute(q.resource, "detailLevel");
    var allow := false;
    for i := 0 to |grants|
      invariant forall j :: 0 <= j < i ==> !Denies(grants[j], q)
      invariant allow <==> exists j :: 0 <= j < i && Permits(grants[j], q)
    {
      var g := grants[i];
      if g.capability != q.capability || g.tenant != q.principal.tenant {
        continue;
      }
      if q.now < g.validFrom || q.now >= g.validUntil {
        continue;
      }
      if g.organization != "" && g.organization != q.resource.organization {
        continue;
      }
      if g.subject != "" && g.subject != q.principal.id {
        continue;
      }
      if g.service != "" && g.service != q.principal.service {
        continue;
      }
      if g.constraints.Some? {
        if !Matches(g.constraints.value, q) {
          continue;
        }
        if g.constraints.value.effect == "DENY" {
          assert g in grants && Denies(g, q);
          return "EXPLICIT_DENY";
        }
      }
      if data != "" && data != "OPEN" && data != "ANONYMOUS" &&
         (g.constraints.None? || data !in g.constraints.value.dataLabels) {
        continue;
      }
      if detail != "" && detail != "PUBLIC_OPERATIONAL" &&
         (g.constraints.None? || detail !in g.constraints.value.detailLevels) {
        continue;
      }
      allow := true;
    }
    if !allow {
      return "NO_APPLICABLE_GRANT";
    }
    return "ALLOW";
  }

  method Evaluate(b: Bundle, q: Query) returns (d: Decision)
    ensures Rules(b, q, d.code) && d == Answer(b, q, d.code)
    ensures Explains(b, q, d.code) && Discloses(b, q, d)
    ensures d.allowed ==>
              && SameTenant(q) && (exists c :: c in b.capabilities && Opens(c, q))
              && (exists g :: g in b.grants && Covers(g, q)) && forall g :: g in b.grants ==> !Forbids(g, q)
    ensures && ValidBundle(b) && SameTenant(q) && (exists c :: c in b.capabilities && Opens(c, q))
            && (exists g :: g in b.grants && Covers(g, q)) && (forall g :: g in b.grants ==> !Forbids(g, q)) ==>
              d.allowed
  {
    d := Decide(b, q);
    RulesMean(b, q, d.code);
    AnswerDiscloses(b, q, d.code);
    if ValidBundle(b) {
      OneDescribed(b, q);
    }
  }

  /** A validated bundle describes a query by at most one capability. */
  lemma OneDescribed(b: Bundle, q: Query)
    requires ValidBundle(b)
    ensures forall c, c2 :: c in b.capabilities && c2 in b.capabilities && Described(c, q) && Described(c2, q) ==>
              c == c2
  {
    hide ValidGrant, ValidCapability;
    forall c, c2 | c in b.capabilities && c2 in b.capabilities && Described(c, q) && Described(c2, q) ensures c == c2 {
      var i :| 0 <= i < |b.capabilities| && b.capabilities[i] == c;
      var j :| 0 <= j < |b.capabilities| && b.capabilities[j] == c2;
    }
  }

  /** The evaluator's branches, in order. */
  method Decide(b: Bundle, q: Query) returns (d: Decision)
    ensures Rules(b, q, d.code) && d == Answer(b, q, d.code)
  {
    hide Denies, Permits;
    if q.principal.tenant == "" || q.principal.tenant != q.resource.tenant {
      return Decision(false, b.id, b.version, q.capability, "TENANT_MISMATCH", map[], "");
    }
    var found := FindCapability(b, q);
    if found.None? {
      return Decision(false, b.id, b.version, q.capability, "CAPABILITY_NOT_DECLARED", map[], "");
    }
    var gate := Gate(found.value, q);
    if gate.Some? {
      return Decision(false, b.id, b.version, q.capability, gate.value, map[], "");
    }
    var code := WalkGrants(b.grants, q);
    if code != "ALLOW" {
      return Decision(false, b.id, b.version, q.capability, code, map[], "");
    }
    var scope := map["tenantId" := q.resource.tenant, "resourceType" := q.resource.kind];
    if q.resource.id != "" {
      scope := scope["resourceId" := q.resource.id];
    }
    scope := scope +
    map k | k in q.resource.attributes && k in {"module", "sourceRef", "jobRef", "dataAccessLabel"} ::
      q.resource.attributes[k];
    var detail := Attribute(q.resource, "detailLevel");
    if detail == "" {
      detail := "PUBLIC_OPERATIONAL";
    }
    return Decision(true, b.id, b.version, q.capability, "ALLOW", scope, detail);
  }

  // ---- What the rule guarantees.

  /** A validated bundle decides every query one way: the rule names exactly one outcome. */
  lemma OneOutcome(b: Bundle, q: Query, code: string, code2: string)
    requires ValidBundle(b) && Rules(b, q, code) && Rules(b, q, code2)
    ensures code == code2
  {
    hide Denies, Permits, Gate, ValidBundle;
    OneDescribed(b, q);
  }

  /** Two bundles with the same members, in any order. */
  predicate SameMembers(b: Bundle, b': Bundle) {
    && b'.id == b.id && b'.version == b.version
    && multiset(b'.capabilities) == multiset(b.capabilities) && multiset(b'.grants) == multiset(b.grants)
  }

  lemma SameSet<T>(s: seq<T>, s': seq<T>)
    requires multiset(s) == multiset(s')
    ensures forall x :: x in s <==> x in s'
  {
    assert forall x :: x in s <==> x in multiset(s);
    assert forall x :: x in s' <==> x in multiset(s');
  }

  lemma SameRules(b: Bundle, b': Bundle, q: Query, code: string)
    requires Rules(b, q, code)
    requires forall c :: c in b.capabilities <==> c in b'.capabilities
    requires forall g :: g in b.grants <==> g in b'.grants
    ensures Rules(b', q, code)
  {
    hide Denies, Permits, Gate, Described;
  }

  /** No permutation of grants or capabilities changes any part of the decision. */
  lemma OrderIsIrrelevant(b: Bundle, b': Bundle, q: Query, code: string, code': string)
    requires ValidBundle(b) && SameMembers(b, b') && Rules(b, q, code) && Rules(b', q, code')
    ensures Answer(b, q, code) == Answer(b', q, code')
  {
    hide ValidBundle, Rules, Answer;
    SameSet(b.capabilities, b'.capabilities);
    SameSet(b.grants, b'.grants);
    SameRules(b', b, q, code');
    OneOutcome(b, q, code, code');
    SameAnswer(b, b', q, code);
  }

  lemma SameAnswer(b: Bundle, b': Bundle, q: Query, code: string)
    requires b.id == b'.id && b.version == b'.version
    ensures Answer(b, q, code) == Answer(b', q, code)
  {
  }

  /** `b'` has the capabilities of `b` and at least its grants. */
  ghost predicate Extends(b: Bundle, b': Bundle) {
    && (forall c :: c in b.capabilities <==> c in b'.capabilities)
    && (forall g :: g in b.grants ==> g in b'.grants)
  }

  /** Adding DENY grants never turns a refusal into ALLOW. */
  lemma DenyNeverAllows(b: Bundle, b': Bundle, q: Query, code: string, code': string)
    requires ValidBundle(b) && Extends(b, b') && (forall g :: g in b'.grants && g !in b.grants ==> IsDeny(g))
    requires Rules(b, q, code) && Rules(b', q, code') && code != "ALLOW"
    ensures code' != "ALLOW"
  {
    hide Applies, ValidBundle;
    if code' == "ALLOW" {
      AllowMeans(b', q);
      var g :| g in b'.grants && Permits(g, q);
      assert g in b.grants;
      AllowFollows(b, b', q);
      OneOutcome(b, q, code, "ALLOW");
    }
  }

  /** Adding grants without DENY never turns ALLOW into a refusal. */
  lemma AllowNeverRefuses(b: Bundle, b': Bundle, q: Query, code: string, code': string)
    requires ValidBundle(b') && Extends(b, b') && (forall g :: g in b'.grants && g !in b.grants ==> !IsDeny(g))
    requires Rules(b, q, code) && Rules(b', q, code') && code == "ALLOW"
    ensures code' == "ALLOW"
  {
    hide Applies, ValidBundle;
    AllowMeans(b, q);
    AllowFollows(b', b, q);
    OneOutcome(b', q, code', "ALLOW");
  }

  /** ALLOW needs a permitting grant, no denying one, and a described capability whose gate is open. */
  lemma AllowMeans(b: Bundle, q: Query)
    requires Rules(b, q, "ALLOW")
    ensures q.principal.tenant != "" && q.principal.tenant == q.resource.tenant
    ensures exists c :: c in b.capabilities && Described(c, q) && Gate(c, q).None?
    ensures exists g :: g in b.grants && Permits(g, q)
    ensures forall g :: g in b.grants ==> !Denies(g, q)
  {
    hide Denies, Permits;
    assert forall c :: Gate(c, q).Some? ==> Gate(c, q).value != "ALLOW";
  }

  /** If `b'` allows, so does a bundle with the same capabilities, a permitting grant and no denying one. */
  lemma AllowFollows(b: Bundle, b': Bundle, q: Query)
    requires Rules(b', q, "ALLOW") && (forall c :: c in b'.capabilities <==> c in b.capabilities)
    requires (exists g :: g in b.grants && Permits(g, q)) && (forall g :: g in b.grants ==> !Denies(g, q))
    ensures Rules(b, q, "ALLOW")
  {
    hide Denies, Permits;
    AllowMeans(b', q);
    var c :| c in b'.capabilities && Described(c, q) && Gate(c, q).None?;
    assert c in b.capabilities;
  }
}
