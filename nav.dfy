/**
 * The `nav_active` template tag (accounts/templatetags/nav.py): which CSS
 * classes a side-menu entry gets for the current request path. URL
 * reversal is a parameter: None stands for `NoReverseMatch`.
 */
module Nav {
  import opened Wrappers

  const ActiveClasses := "bg-blue-700 text-white font-semibold"
  const InactiveClasses := "text-white/80 hover:text-white hover:bg-blue-700/50"

  /** The URL-name prefixes treated as whole menu sections. */
  const Secoes: seq<string> := ["alunos:", "financeiro:", "frequencia:", "relatorios:", "treinos:"]

  /** `urlname.startswith((...))` over the section prefixes. */
  predicate EhSecao(urlname: string) {
    exists k :: 0 <= k < |Secoes| && Secoes[k] <= urlname
  }

  /** `urlname.split(':')[0]`: the text before the first colon, or all of it. */
  function AppName(urlname: string): (r: string)
    ensures r <= urlname && ':' !in r
    ensures |r| < |urlname| ==> urlname[|r|] == ':'
  {
    if urlname == [] || urlname[0] == ':' then []
    else [urlname[0]] + AppName(urlname[1..])
  }

  /** A name written as an app, a colon and the rest has that app as its AppName. */
  lemma {:induction false} AppNameDe(app: string, resto: string)
    requires ':' !in app
    ensures AppName(app + ":" + resto) == app
  {
    if app != [] {
      assert (app + ":" + resto)[1..] == app[1..] + ":" + resto;
      AppNameDe(app[1..], resto);
    }
  }

  /** `nav_active(context, urlname)` with `request.path` and the reversed URL. */
  function NavActive(urlname: string, path: string, baseUrl: Option<string>): (r: string)
    ensures r == ActiveClasses || r == InactiveClasses
    ensures baseUrl.None? ==> r == InactiveClasses
    ensures baseUrl.Some? && path == baseUrl.value ==> r == ActiveClasses
    ensures baseUrl.Some? && baseUrl.value != "/" && baseUrl.value <= path ==> r == ActiveClasses
    ensures r == ActiveClasses ==>
              baseUrl.Some? &&
              (baseUrl.value <= path || (EhSecao(urlname) && "/" + AppName(urlname) + "/" <= path))
  {
    match baseUrl
    case None => InactiveClasses
    case Some(base) =>
      if path == base then ActiveClasses
      else if EhSecao(urlname) && "/" + AppName(urlname) + "/" <= path then ActiveClasses
      else if base <= path && base != "/" then ActiveClasses
      else InactiveClasses
  }

  /** Inside a section, every path under "/<app>/" highlights the section's entries. */
  lemma SecaoAtiva(k: int, resto: string, path: string, base: string)
    requires 0 <= k < |Secoes|
    requires "/" + Secoes[k][..|Secoes[k]| - 1] + "/" <= path
    ensures NavActive(Secoes[k] + resto, path, Some(base)) == ActiveClasses
  {
    var s := Secoes[k];
    var app := s[..|s| - 1];
    assert s == app + ":";
    assert ':' !in app;
    AppNameDe(app, resto);
    assert s + resto == app + ":" + resto;
    assert s <= s + resto;
  }

  /** The site root "/" is only highlighted on the root itself, outside the sections. */
  lemma RaizSoExata(urlname: string, path: string)
    requires !EhSecao(urlname) && path != "/"
    ensures NavActive(urlname, path, Some("/")) == InactiveClasses
  {
  }
}
