/**
 * The sidebar's active-item rule over its six menu entries.
 */
module AppSidebar {
  import opened JsText

  datatype MenuItem = MenuItem(title: string, url: string)

  const MenuItems: seq<MenuItem> := [
    MenuItem("Dashboard", "/"),
    MenuItem("Receitas", "/receitas"),
    MenuItem("Despesas", "/despesas"),
    MenuItem("Dívidas", "/dividas"),
    MenuItem("Relatórios", "/relatorios"),
    MenuItem("Configurações", "/configuracoes")
  ]

  const ActiveClass := "bg-gradient-primary text-primary-foreground shadow-glow font-medium"
  const InactiveClass := "hover:bg-muted/50 text-muted-foreground hover:text-foreground"

  /**
   * `isActive`: the root item only on the root itself; any other item whenever the current
   * path starts with its URL, with no check of a segment boundary.
   */
  function IsActive(currentPath: string, path: string): (active: bool)
    ensures path == "/" ==> (active <==> currentPath == "/")
    ensures path != "/" ==> (active <==> StartsWith(currentPath, path))
  {
    if path == "/" then currentPath == "/" else StartsWith(currentPath, path)
  }

  /** `getNavClassName`: the highlighted class exactly for an active item. */
  function NavClassName(currentPath: string, path: string): (cls: string)
    ensures cls == ActiveClass <==> IsActive(currentPath, path)
    ensures cls == ActiveClass || cls == InactiveClass
  {
    if IsActive(currentPath, path) then ActiveClass else InactiveClass
  }

  /** Two prefixes of one path that differ at some index cannot both be prefixes. */
  lemma DifferingPrefixes(currentPath: string, a: string, b: string, k: nat)
    requires k < |a| && k < |b| && a[k] != b[k]
    ensures !(StartsWith(currentPath, a) && StartsWith(currentPath, b))
  {
  }

  /** No path makes two menu items active at once. */
  lemma AtMostOneActive(currentPath: string, i: nat, j: nat)
    requires i < |MenuItems| && j < |MenuItems|
    requires IsActive(currentPath, MenuItems[i].url) && IsActive(currentPath, MenuItems[j].url)
    ensures i == j
  {
    if i != j && i != 0 && j != 0 {
      var a, b := MenuItems[i].url, MenuItems[j].url;
      var k := if (i == 1 && j == 4) || (i == 4 && j == 1) then 3
               else if (i == 2 && j == 3) || (i == 3 && j == 2) then 2
               else 1;
      DifferingPrefixes(currentPath, a, b, k);
    }
  }

  /** The missing boundary check: '/receitasX' still highlights Receitas. */
  lemma NoSegmentBoundary()
    ensures IsActive("/receitasX", MenuItems[1].url)
  {
    assert "/receitasX"[..9] == "/receitas";
  }
}
