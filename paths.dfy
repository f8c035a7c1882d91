/**
 * Asset-path resolution and the fixed asset manifest. On the app subdomain the
 * dashboard is served from the site root, so a leading "/dashboard" is dropped;
 * elsewhere paths are used as written.
 */
module Paths {

  /** The prefix matched by the anchored pattern `^\/dashboard`. */
  const DashboardPrefix: string := "/dashboard"

  const OfflinePage: string := "/dashboard/offline.html"
  const LogoAsset: string := "/dashboard/logoLight.png"
  const BadgeAsset: string := "/dashboard/badge.ico"

  predicate HasPrefix(s: string, p: string) {
    |p| <= |s| && s[..|p|] == p
  }

  /** `resolvePath`: a non-global replacement of `^\/dashboard` by the empty
      string, applied only on the app subdomain. */
  function ResolvePath(isAppSubdomain: bool, path: string): (r: string)
    ensures !isAppSubdomain ==> r == path
    ensures isAppSubdomain && HasPrefix(path, DashboardPrefix) ==> DashboardPrefix + r == path
    ensures isAppSubdomain && !HasPrefix(path, DashboardPrefix) ==> r == path
    ensures |r| <= |path| && r == path[|path| - |r|..]
  {
    if isAppSubdomain && HasPrefix(path, DashboardPrefix) then path[|DashboardPrefix|..] else path
  }

  /** Only the first occurrence is removed, and only at the start. */
  lemma ResolvePathStripsOnce()
    ensures ResolvePath(true, "/dashboard/dashboard/x") == "/dashboard/x"
    ensures ResolvePath(true, "/dashboardx") == "x"
    ensures ResolvePath(true, "/app/dashboard/x") == "/app/dashboard/x"
  {
    assert HasPrefix("/dashboard/dashboard/x", DashboardPrefix);
    assert HasPrefix("/dashboardx", DashboardPrefix);
    assert "/app/dashboard/x"[..|DashboardPrefix|][1] != DashboardPrefix[1];
  }

  /** On the app subdomain, prepending the prefix and resolving gives back the path. */
  lemma ResolvePathUndoesPrefix(p: string)
    ensures ResolvePath(true, DashboardPrefix + p) == p
  {
  }

  /** Resolution is not idempotent: a doubled prefix needs two passes. */
  lemma ResolvePathNotIdempotent()
    ensures ResolvePath(true, ResolvePath(true, "/dashboard/dashboard/x"))
         != ResolvePath(true, "/dashboard/dashboard/x")
  {
  }

  /** The offline fallback page, as this deployment serves it. */
  function OfflineUrl(isAppSubdomain: bool): (r: string)
    ensures isAppSubdomain ==> DashboardPrefix + r == OfflinePage
    ensures !isAppSubdomain ==> r == OfflinePage
  {
    ResolvePath(isAppSubdomain, OfflinePage)
  }

  /** The notification icon. */
  function IconUrl(isAppSubdomain: bool): (r: string)
    ensures isAppSubdomain ==> DashboardPrefix + r == LogoAsset
    ensures !isAppSubdomain ==> r == LogoAsset
  {
    ResolvePath(isAppSubdomain, LogoAsset)
  }

  /** The notification badge. */
  function BadgeUrl(isAppSubdomain: bool): (r: string)
    ensures isAppSubdomain ==> DashboardPrefix + r == BadgeAsset
    ensures !isAppSubdomain ==> r == BadgeAsset
  {
    ResolvePath(isAppSubdomain, BadgeAsset)
  }

  /** The three assets resolve as expected in each deployment. */
  lemma AssetUrls(isAppSubdomain: bool)
    ensures OfflineUrl(isAppSubdomain) == if isAppSubdomain then "/offline.html" else "/dashboard/offline.html"
    ensures IconUrl(isAppSubdomain) == if isAppSubdomain then "/logoLight.png" else "/dashboard/logoLight.png"
    ensures BadgeUrl(isAppSubdomain) == if isAppSubdomain then "/badge.ico" else "/dashboard/badge.ico"
  {
  }

  /** The pre-cache list: the offline page first, then the two notification
      assets, so everything a notification or the fallback needs is cached. */
  function FilesToCache(isAppSubdomain: bool): (r: seq<string>)
    ensures r == if isAppSubdomain then ["/offline.html", "/logoLight.png", "/badge.ico"]
                 else ["/dashboard/offline.html", "/dashboard/logoLight.png", "/dashboard/badge.ico"]
    ensures r == [OfflineUrl(isAppSubdomain), IconUrl(isAppSubdomain), BadgeUrl(isAppSubdomain)]
  {
    [ResolvePath(isAppSubdomain, OfflinePage),
     ResolvePath(isAppSubdomain, LogoAsset),
     ResolvePath(isAppSubdomain, BadgeAsset)]
  }

  /** The pre-cache list has three distinct entries, the offline page first,
      and every entry is non-empty. */
  lemma ManifestShape(isAppSubdomain: bool)
    ensures var files := FilesToCache(isAppSubdomain);
      && |files| == 3 && files[0] == OfflineUrl(isAppSubdomain)
      && files[0] != files[1] && files[0] != files[2] && files[1] != files[2]
      && forall i :: 0 <= i < 3 ==> files[i] != ""
  {
    assert HasPrefix(OfflinePage, DashboardPrefix);
    assert HasPrefix(LogoAsset, DashboardPrefix);
    assert HasPrefix(BadgeAsset, DashboardPrefix);
    var cut := if isAppSubdomain then |DashboardPrefix| else 0;
    assert |OfflineUrl(isAppSubdomain)| == |OfflinePage| - cut;
    assert |IconUrl(isAppSubdomain)| == |LogoAsset| - cut;
    assert |BadgeUrl(isAppSubdomain)| == |BadgeAsset| - cut;
  }
}
