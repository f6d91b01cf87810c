/** The browser's endpoint table: every server URL is the host, a port and a
    fixed path. */
module Config {
  import opened Common

  const ApiHost: string := "http://localhost"
  const DefaultPort: int := 5000

  /** The ports tried in turn when looking for a live server. */
  const ApiPorts: seq<int> := [5000, 5001, 5002, 5003]

  datatype Endpoints = Endpoints(
    health: string, dashboard: string, userDashboard: string, inventory: string,
    reports: string, login: string, register: string, sales: string,
    addItem: string, restock: string, processSale: string)

  const HealthPath: string := "/api/health"
  const SalesPath: string := "/api/sales"

  /** `${API_HOST}:${port}`: the host and a colon, then the port's text,
      which reads back as the port. */
  function BaseUrl(port: int): (u: string)
    ensures |u| > |ApiHost| + 1 && u[..|ApiHost| + 1] == ApiHost + ":"
    ensures port >= 0 ==> AllDigits(u[|ApiHost| + 1..]) && ParseDecimal(u[|ApiHost| + 1..]) == port
    ensures port < 0 ==> u[|ApiHost| + 1] == '-'
  {
    var u := ApiHost + ":" + IntString(port);
    assert u[|ApiHost| + 1..] == IntString(port);
    if port >= 0 then ParseDecimalString(port); u else u
  }

  /** `createEndpoints(port)`; an absent port is the default one. Every URL
      starts with the base URL of that port; the sale is reached by two
      names. */
  function CreateEndpoints(port: Option<int>): (e: Endpoints)
    ensures var base := BaseUrl(if port.Some? then port.value else DefaultPort);
            e.health == base + HealthPath && e.sales == base + SalesPath &&
            e.inventory == base + "/api/inventory" && e.reports == base + "/api/reports/sales" &&
            e.login == base + "/api/auth/login" &&
            base <= e.dashboard && base <= e.userDashboard && base <= e.register &&
            base <= e.addItem && base <= e.restock
    ensures e.sales == e.processSale
  {
    var base := BaseUrl(if port.Some? then port.value else DefaultPort);
    Endpoints(base + HealthPath, base + "/api/dashboard", base + "/api/user-dashboard",
              base + "/api/inventory", base + "/api/reports/sales", base + "/api/auth/login",
              base + "/api/auth/register", base + SalesPath, base + "/api/inventory/add",
              base + "/api/inventory/restock", base + SalesPath)
  }

  /** `API_ENDPOINTS`: the table for the default port. */
  const ApiEndpoints: Endpoints := CreateEndpoints(None)

  /** The default table is the one built for the first port probed. */
  lemma DefaultTableIsFirstPort()
    ensures ApiPorts[0] == DefaultPort
    ensures ApiEndpoints == CreateEndpoints(Some(ApiPorts[0])) == CreateEndpoints(Some(DefaultPort))
  {
  }

  /** Reads the port back out of a health-check URL. */
  function HealthPort(url: string): int
  {
    var start := |ApiHost| + 1;
    if |url| >= start + |HealthPath| && AllDigits(url[start..|url| - |HealthPath|])
    then ParseDecimal(url[start..|url| - |HealthPath|])
    else -1
  }

  /** The health-check URL names its port: reading it back gives the port. */
  lemma HealthUrlNamesPort(port: int)
    requires port >= 0
    ensures HealthPort(CreateEndpoints(Some(port)).health) == port
  {
    var base := BaseUrl(port);
    var url := CreateEndpoints(Some(port)).health;
    var start := |ApiHost| + 1;
    assert url == base + HealthPath;
    assert url[start..|url| - |HealthPath|] == base[start..];
  }

  /** Different ports give different health-check URLs, so the probe tries
      four distinct servers. */
  lemma ProbedServersDiffer(i: nat, j: nat)
    requires i < j < |ApiPorts|
    ensures CreateEndpoints(Some(ApiPorts[i])).health != CreateEndpoints(Some(ApiPorts[j])).health
  {
    assert ApiPorts[i] != ApiPorts[j];
    HealthUrlsDiffer(ApiPorts[i], ApiPorts[j]);
  }

  /** Different ports give different health-check URLs. */
  lemma HealthUrlsDiffer(p: int, q: int)
    requires 0 <= p && 0 <= q && p != q
    ensures CreateEndpoints(Some(p)).health != CreateEndpoints(Some(q)).health
  {
    HealthUrlNamesPort(p);
    HealthUrlNamesPort(q);
  }
}
