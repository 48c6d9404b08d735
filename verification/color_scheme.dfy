/** The colour scheme hook (hooks/useColorScheme.ts): the store's theme when
    it is set, else the system scheme, else light; and always light before
    the first effect has run. The system scheme is a parameter. */
module ColorScheme {
  import opened Seqs
  import opened Store

  /** The scheme the hook returns. */
  function EffectiveScheme(hydrated: bool, storeTheme: Option<Theme>, systemScheme: Option<Theme>): (scheme: Theme)
    ensures !hydrated ==> scheme == Light
    ensures hydrated && storeTheme.Some? ==> scheme == storeTheme.value
    ensures hydrated && storeTheme.None? && systemScheme.Some? ==> scheme == systemScheme.value
    ensures hydrated && storeTheme.None? && systemScheme.None? ==> scheme == Light
  {
    var effective :=
      if storeTheme.Some? then storeTheme.value
      else if systemScheme.Some? then systemScheme.value
      else Light;
    if hydrated then effective else Light
  }

  /** The store always holds a theme, so once hydrated the hook follows the
      store and the system scheme never decides; before that it is light. */
  lemma StoreThemeDecides(storeTheme: Theme, hydrated: bool, systemScheme: Option<Theme>)
    ensures EffectiveScheme(hydrated, Some(storeTheme), systemScheme) ==
      (if hydrated then storeTheme else Light)
    ensures hydrated ==>
      forall other :: EffectiveScheme(hydrated, Some(storeTheme), other) == storeTheme
  {
  }

  /** After `toggleTheme` the hydrated hook returns the other scheme. */
  lemma ToggleFlipsScheme(t: Theme, systemScheme: Option<Theme>)
    ensures EffectiveScheme(true, Some(Toggled(t)), systemScheme) != EffectiveScheme(true, Some(t), systemScheme)
  {
  }
}
