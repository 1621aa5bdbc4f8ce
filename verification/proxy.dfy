/** The record of the proxy service: its caches, its store and its settings. */
module ProxyState {
  import opened Storage
  import opened Jenkins
  import Tenant

  class Proxy {
    var tenantCache: map<string, Tenant.Namespace>
    var proxyCache: map<string, CacheItem>
    const store: DBStore
    const idler: Idler
    const redirect: string
    const clusters: map<string, string>
    const maxRequestRetry: int

    constructor (store: DBStore, idler: Idler, redirect: string, clusters: map<string, string>, maxRequestRetry: int)
      ensures tenantCache == map[] && proxyCache == map[]
      ensures this.store == store && this.idler == idler && this.redirect == redirect && this.clusters == clusters
      ensures this.maxRequestRetry == maxRequestRetry
    {
      tenantCache, proxyCache := map[], map[];
      this.store, this.idler, this.redirect, this.clusters := store, idler, redirect, clusters;
      this.maxRequestRetry := maxRequestRetry;
    }
  }
}
