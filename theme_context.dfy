/** The colour-theme store: a light/dark state, resolved on mount from the stored choice
    or the system preference, changed by `setTheme` and `toggle`, and mirrored into
    storage under the key "theme" and into the document's `data-theme` attribute. */
module ThemeContext {

  import opened Wrappers

  datatype Theme = Light | Dark

  function ThemeName(t: Theme): string {
    match t
    case Light => "light"
    case Dark => "dark"
  }

  /** `stored === "light" || stored === "dark"`: only the two exact names are accepted. */
  function ParseTheme(s: string): (r: Option<Theme>)
    ensures r.Some? <==> s == "light" || s == "dark"
  {
    if s == "light" then Some(Light)
    else if s == "dark" then Some(Dark)
    else None
  }

  /** A theme name parses back to its theme, and only a theme's own name parses to it. */
  lemma ThemeNameRoundTrip(t: Theme, s: string)
    ensures ParseTheme(ThemeName(t)) == Some(t)
    ensures ParseTheme(s) == Some(t) ==> s == ThemeName(t)
  {
  }

  /** What reading "theme" from storage gave: an exception, or the value (absent when the
      key is unset). */
  datatype StorageRead = Threw | Read(value: Option<string>)

  /** The mount effect's choice: a valid stored value, otherwise dark exactly when the
      system reports a dark preference. `media` is the result of the
      `prefers-color-scheme: dark` query, `None` where `matchMedia` is missing. */
  function ResolveInitial(read: StorageRead, media: Option<bool>): (r: Theme)
    ensures read.Read? && read.value.Some? && ParseTheme(read.value.value).Some? ==>
      r == ParseTheme(read.value.value).value
    ensures !(read.Read? && read.value.Some? && ParseTheme(read.value.value).Some?) ==>
      (r == Dark <==> media == Some(true))
  {
    var stored := if read.Read? && read.value.Some? then ParseTheme(read.value.value) else None;
    if stored.Some? then stored.value
    else if media == Some(true) then Dark
    else Light
  }

  /** A stored choice survives a reload whatever the system prefers. */
  lemma StoredChoiceWins(t: Theme, media: Option<bool>)
    ensures ResolveInitial(Read(Some(ThemeName(t))), media) == t
  {
  }

  /** The `toggle` updater. */
  function Flip(t: Theme): (r: Theme)
    ensures r != t
  {
    if t == Light then Dark else Light
  }

  function FlipTimes(t: Theme, n: nat): Theme {
    if n == 0 then t else Flip(FlipTimes(t, n - 1))
  }

  /** Toggling twice changes nothing; from light, `n` toggles give dark exactly when `n`
      is odd. */
  lemma {:induction false} ToggleParity(n: nat)
    ensures Flip(Flip(Light)) == Light && Flip(Flip(Dark)) == Dark
    ensures FlipTimes(Light, n) == Dark <==> n % 2 == 1
  {
    if n > 0 {
      ToggleParity(n - 1);
    }
  }

  /** `useTheme`: the provider's value, or the error thrown outside a provider. */
  function UseTheme(ctx: Option<Theme>): (r: Result<Theme, string>)
    ensures r.Err? <==> ctx == None
    ensures r.Ok? ==> r.value == ctx.value
    ensures r.Err? ==> r.error == "useTheme must be used within ThemeProvider"
  {
    match ctx
    case Some(t) => Ok(t)
    case None => Err("useTheme must be used within ThemeProvider")
  }

  /** The provider with its storage cell and the document attribute. Whether the storage
      calls throw is fixed by the environment. */
  class ThemeProvider {
    var theme: Theme
    var stored: Option<string>
    var attribute: Option<string>
    var mounted: bool
    const readThrows: bool
    const writeThrows: bool

    /** After mount, storage (when writable) and the attribute both hold the theme. */
    ghost predicate Mirrored()
      reads this
    {
      && mounted
      && attribute == Some(ThemeName(theme))
      && (!writeThrows ==> stored == Some(ThemeName(theme)))
    }

    /** `useState("light")`, before any effect has run. */
    constructor (stored: Option<string>, readThrows: bool, writeThrows: bool)
      ensures theme == Light && this.stored == stored && attribute == None && !mounted
      ensures this.readThrows == readThrows && this.writeThrows == writeThrows
    {
      theme := Light;
      this.stored := stored;
      attribute := None;
      mounted := false;
      this.readThrows := readThrows;
      this.writeThrows := writeThrows;
    }

    /** The `[theme]` effect: write storage, swallowing a failure, then set the
        attribute. */
    method Persist()
      modifies this
      ensures stored == (if writeThrows then old(stored) else Some(ThemeName(theme)))
      ensures attribute == Some(ThemeName(theme))
      ensures theme == old(theme) && mounted == old(mounted)
    {
      if !writeThrows {
        stored := Some(ThemeName(theme));
      }
      attribute := Some(ThemeName(theme));
    }

    /** The mount effects, settled: the resolved theme, persisted and mirrored. */
    method Mount(media: Option<bool>)
      modifies this
      ensures theme == ResolveInitial(if readThrows then Threw else Read(old(stored)), media)
      ensures Mirrored()
      ensures writeThrows ==> stored == old(stored)
    {
      var read := if readThrows then Threw else Read(stored);
      theme := ResolveInitial(read, media);
      mounted := true;
      Persist();
    }

    /** `setTheme(t)`; the `[theme]` effect runs only when the value changes. */
    method SetTheme(t: Theme)
      modifies this
      ensures theme == t && mounted == old(mounted)
      ensures t == old(theme) ==> stored == old(stored) && attribute == old(attribute)
      ensures t != old(theme) ==> attribute == Some(ThemeName(t))
      ensures t != old(theme) ==> stored == (if writeThrows then old(stored) else Some(ThemeName(t)))
      ensures old(Mirrored()) ==> Mirrored()
    {
      if t != theme {
        theme := t;
        Persist();
      }
    }

    /** `toggle`. */
    method Toggle()
      modifies this
      ensures theme == Flip(old(theme)) && mounted == old(mounted)
      ensures attribute == Some(ThemeName(theme))
      ensures stored == (if writeThrows then old(stored) else Some(ThemeName(theme)))
      ensures old(Mirrored()) ==> Mirrored()
    {
      theme := Flip(theme);
      Persist();
    }
  }

  /** A choice made with working storage is the theme of the next page load. */
  method ReloadKeepsChoice(media: Option<bool>, media2: Option<bool>)
  {
    var p := new ThemeProvider(None, false, false);
    p.Mount(media);
    p.SetTheme(Dark);
    var q := new ThemeProvider(p.stored, false, false);
    q.Mount(media2);
    assert q.theme == Dark;
  }
}
