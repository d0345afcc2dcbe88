/** The theme provider's logic: the saved preference check, the toggle,
    the derived flags, the root element's classes, and the hook that needs
    a mounted provider. Storage and the DOM are left out; the saved value
    is an input and the class list a set. */
module Theme {
  import opened Wrappers

  /** The only two themes. */
  datatype Mode = Light | Dark

  /** The theme's name, as stored and as a root class. */
  function Name(m: Mode): (s: string)
    ensures s == "light" || s == "dark"
    ensures s == "dark" <==> m == Dark
  {
    match m
    case Light => "light"
    case Dark => "dark"
  }

  /** The theme before the saved preference is read. */
  const Initial := Light

  /** What the mount effect does with the saved preference: the theme it
      adopts, and whether it writes 'light' back because the saved value
      was missing or not a theme name. */
  datatype Adopted = Adopted(theme: Mode, resetStorage: bool)

  /** The mount effect: a saved 'light' or 'dark' is adopted as is; any
      other value, or none, gives 'light' and resets the stored value. */
  function Adopt(saved: Option<string>): (a: Adopted)
    ensures saved == Some("dark") <==> a.theme == Dark
    ensures a.resetStorage <==> !(saved == Some("light") || saved == Some("dark"))
    ensures !a.resetStorage ==> saved == Some(Name(a.theme))
  {
    if saved == Some("light") then Adopted(Light, false)
    else if saved == Some("dark") then Adopted(Dark, false)
    else Adopted(Light, true)
  }

  /** `toggleTheme`: light becomes dark and dark becomes light. */
  function Toggle(m: Mode): (r: Mode)
    ensures r != m
  {
    match m
    case Light => Dark
    case Dark => Light
  }

  /** Toggling twice restores the theme. */
  lemma ToggleTwice(m: Mode)
    ensures Toggle(Toggle(m)) == m
  {
  }

  /** The provider's value. */
  datatype Value = Value(theme: Mode, isDark: bool, isLight: bool)

  /** The value a provider offers: none until it has mounted. */
  function Offered(theme: Mode, mounted: bool): (v: Option<Value>)
    ensures v.Some? <==> mounted
    ensures v.Some? ==> v.value.theme == theme
    ensures v.Some? ==> (v.value.isDark <==> !v.value.isLight)
    ensures v.Some? ==> (v.value.isDark <==> Name(theme) == "dark")
  {
    if mounted then Some(Value(theme, Name(theme) == "dark", Name(theme) == "light")) else None
  }

  /** The root element's classes after the theme is applied: 'light' and
      'dark' removed, the current theme's name added, the rest kept. */
  function RootClasses(classes: set<string>, m: Mode): (r: set<string>)
    ensures Name(m) in r
    ensures Name(Toggle(m)) !in r
    ensures forall c :: c in classes && c != "light" && c != "dark" ==> c in r
    ensures forall c :: c in r && c != Name(m) ==> c in classes
  {
    (classes - {"light", "dark"}) + {Name(m)}
  }

  /** Applying a theme and then its opposite leaves exactly the opposite
      theme's class, as if the first had never been applied. */
  lemma ApplyOverrides(classes: set<string>, m: Mode)
    ensures RootClasses(RootClasses(classes, m), Toggle(m)) == RootClasses(classes, Toggle(m))
  {
  }

  const OutsideProvider := "useTheme must be used within a ThemeProvider"

  /** `useTheme()`: the provider's value, or an error when there is none. */
  function UseTheme(context: Option<Value>): (r: Result<Value>)
    ensures context.None? ==> r == Err(OutsideProvider)
    ensures context.Some? ==> r == Ok(context.value)
  {
    match context
    case None => Err(OutsideProvider)
    case Some(v) => Ok(v)
  }

  /** A component under a provider that has not mounted yet gets the error. */
  lemma BeforeMountThrows(theme: Mode)
    ensures UseTheme(Offered(theme, false)).Err?
    ensures UseTheme(Offered(theme, true)).Ok?
  {
  }
}
