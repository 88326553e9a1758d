/**
 * The display theme: a single state field, initialised from the saved
 * preference or the system colour scheme, toggled by the user, and
 * mirrored into the document root's class list and into storage after
 * every change.
 */
module ThemeContext {
  import opened Wrappers

  /** The theme the provider starts in, and the one the provider-less default context reports. */
  const DefaultTheme: string := "dark"

  /**
   * The theme the mount effect settles on: a truthy saved value verbatim,
   * else "light" when the system prefers a light scheme, else "dark".
   * `saved` is `localStorage.getItem("theme")`; `prefersLight` stands for
   * `window.matchMedia && window.matchMedia("(prefers-color-scheme: light)").matches`.
   */
  function InitialTheme(saved: Option<string>, prefersLight: bool): string {
    if saved.Some? && saved.value != "" then saved.value
    else if prefersLight then "light"
    else DefaultTheme
  }

  /** `prevTheme === "dark" ? "light" : "dark"` */
  function NextTheme(theme: string): string {
    if theme == "dark" then "light" else "dark"
  }

  /** The saved value wins, even one that is neither "light" nor "dark"; without one, only a light system preference moves off "dark". */
  lemma InitialThemePrecedence(saved: Option<string>, prefersLight: bool)
    ensures saved.Some? && saved.value != "" ==> InitialTheme(saved, prefersLight) == saved.value
    ensures InitialTheme(Some("sepia"), prefersLight) == "sepia"
    ensures saved.None? || saved.value == "" ==>
              (InitialTheme(saved, prefersLight) == "light" <==> prefersLight)
    ensures saved.None? || saved.value == "" ==>
              InitialTheme(saved, prefersLight) in {"light", "dark"}
  {
  }

  /** Toggling twice from "light" or "dark" returns to the start; from any other value one toggle gives "dark". */
  lemma ToggleTwiceRestores(theme: string)
    ensures NextTheme(theme) in {"light", "dark"}
    ensures theme in {"light", "dark"} ==> NextTheme(NextTheme(theme)) == theme && NextTheme(theme) != theme
    ensures theme !in {"light", "dark"} ==> NextTheme(theme) == "dark"
  {
  }

  /** `ThemeProvider`, with the document root's class list and the stored theme it writes. */
  class ThemeProvider {
    var theme: string
    /** `document.documentElement.classList` */
    var rootClasses: set<string>
    /** `localStorage.getItem("theme")` */
    var storedTheme: Option<string>

    /** The document and storage agree with the theme: only the current theme of {light, dark} is a root class, and it is stored. */
    ghost predicate Synced()
      reads this
    {
      && theme in rootClasses
      && ("light" != theme ==> "light" !in rootClasses)
      && ("dark" != theme ==> "dark" !in rootClasses)
      && storedTheme == Some(theme)
    }

    /** `useState("dark")`, over the page's current class list and storage. */
    constructor (rootClasses: set<string>, storedTheme: Option<string>)
      ensures theme == "dark"
      ensures this.rootClasses == rootClasses && this.storedTheme == storedTheme
    {
      theme := DefaultTheme;
      this.rootClasses := rootClasses;
      this.storedTheme := storedTheme;
    }

    /** The sync effect: replace "light"/"dark" on the root by the theme, and store the theme. */
    method SyncDocument()
      modifies this
      ensures theme == old(theme) && Synced()
      ensures rootClasses == old(rootClasses) - {"light", "dark"} + {theme}
    {
      rootClasses := rootClasses - {"light", "dark"};
      rootClasses := rootClasses + {theme};
      storedTheme := Some(theme);
    }

    /**
     * Mounting: the initialisation effect reads the stored value and sets
     * the theme only for a truthy saved value or a light system preference;
     * the sync effect then runs for the theme of the first render, and once
     * more if the theme changed. From the provider's initial "dark" this is
     * InitialTheme. Root classes other than "light", "dark" and the two
     * themes are kept.
     */
    method Mount(prefersLight: bool)
      modifies this
      ensures theme == if old(storedTheme).Some? && old(storedTheme).value != "" then old(storedTheme).value
                       else if prefersLight then "light" else old(theme)
      ensures old(theme) == "dark" ==> theme == InitialTheme(old(storedTheme), prefersLight)
      ensures Synced()
      ensures forall c :: c != "light" && c != "dark" && c != theme && c != old(theme) ==>
                (c in rootClasses <==> c in old(rootClasses))
    {
      var saved := storedTheme;
      var next := theme;
      if saved.Some? && saved.value != "" {
        next := saved.value;
      } else if prefersLight {
        next := "light";
      }
      SyncDocument();
      if next != theme {
        theme := next;
        SyncDocument();
      }
    }

    /** `toggleTheme`, followed by the sync effect it triggers. */
    method ToggleTheme()
      modifies this
      ensures theme == NextTheme(old(theme))
      ensures Synced()
      ensures rootClasses == old(rootClasses) - {"light", "dark"} + {theme}
    {
      theme := NextTheme(theme);
      SyncDocument();
    }
  }

  /** What `useTheme` finds: the provider, or the default context outside every provider. */
  datatype ThemeContextValue = DefaultContext | Provided(provider: ThemeProvider)

  /** The theme `useTheme` reports. */
  function CurrentTheme(context: ThemeContextValue): (theme: string)
    reads if context.Provided? then {context.provider} else {}
    ensures context.DefaultContext? ==> theme == "dark"
    ensures context.Provided? ==> theme == context.provider.theme
  {
    match context
    case DefaultContext => DefaultTheme
    case Provided(p) => p.theme
  }

  /** The `toggleTheme` `useTheme` reports: the provider's, or the default context's no-op. */
  method ToggleVia(context: ThemeContextValue)
    modifies if context.Provided? then {context.provider} else {}
    ensures context.Provided? ==> context.provider.theme == NextTheme(old(context.provider.theme))
                                  && context.provider.Synced()
  {
    if context.Provided? {
      context.provider.ToggleTheme();
    }
  }
}
