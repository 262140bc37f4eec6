/** The part of `HttpContext` the tenant machinery uses: the per-request `Items` dictionary. */
module Http {
  import opened Common

  /** The value stored under an `Items` key; the source stores GUIDs and (possibly null)
      strings, and anything else written there is some other object. */
  datatype ItemValue = GuidItem(g: Guid) | StringItem(s: string) | NullItem | OtherItem

  const TenantIdKey := "TenantId"
  const TenantNameKey := "TenantName"
  const TenantSubdomainKey := "TenantSubdomain"

  class HttpContext {
    var items: map<string, ItemValue>
    const path: string

    constructor (path: string)
      ensures items == map[] && this.path == path
    {
      items := map[];
      this.path := path;
    }
  }
}
