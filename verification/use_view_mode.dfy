/**
 * The view-mode provider: a mode read from storage ('auto' when nothing is stored), the
 * window width, and the rule that decides whether the mobile layout is shown.
 */
module UseViewMode {
  import opened Wrappers

  datatype ViewMode = Auto | Mobile | Desktop

  const StorageKey := "viewMode"
  /** Widths below this are shown as mobile in automatic mode. */
  const Breakpoint := 768
  /** The width assumed when there is no window. */
  const DefaultWidth := 1024

  function ModeText(mode: ViewMode): (text: string)
    ensures text != ""
  {
    match mode
    case Auto => "auto"
    case Mobile => "mobile"
    case Desktop => "desktop"
  }

  /**
   * The stored mode as read on load: any non-empty stored text is taken as it is (the cast
   * does not check it), and a missing or empty value gives 'auto'.
   */
  function InitialMode(saved: Option<string>): (mode: string)
    ensures mode != ""
    ensures saved.Some? && saved.value != "" ==> mode == saved.value
    ensures saved.None? || saved.value == "" ==> mode == ModeText(Auto)
  {
    if saved.Some? && saved.value != "" then saved.value else "auto"
  }

  /**
   * `isMobileView`: 'mobile' and 'desktop' decide by themselves; 'auto' and any unrecognised
   * text fall back to the width rule.
   */
  function IsMobileView(mode: string, width: int): (mobile: bool)
    ensures mode == ModeText(Mobile) ==> mobile
    ensures mode == ModeText(Desktop) ==> !mobile
    ensures mode != ModeText(Mobile) && mode != ModeText(Desktop) ==> (mobile <==> width < Breakpoint)
  {
    if mode == "mobile" then true
    else if mode == "desktop" then false
    else width < Breakpoint
  }

  /** The provider's state: the mode, the window width, and `localStorage`. */
  class ViewModeProvider {
    var viewMode: string
    var windowWidth: int
    var storage: map<string, string>

    constructor (storage0: map<string, string>, innerWidth: Option<int>)
      ensures storage == storage0
      ensures viewMode == InitialMode(if StorageKey in storage0 then Some(storage0[StorageKey]) else None)
      ensures windowWidth == if innerWidth.Some? then innerWidth.value else DefaultWidth
    {
      storage := storage0;
      var saved := if StorageKey in storage0 then Some(storage0[StorageKey]) else None;
      viewMode := InitialMode(saved);
      windowWidth := if innerWidth.Some? then innerWidth.value else DefaultWidth;
    }

    function IsMobile(): (mobile: bool)
      reads this
      ensures viewMode == ModeText(Auto) ==> (mobile <==> windowWidth < Breakpoint)
    {
      IsMobileView(viewMode, windowWidth)
    }

    /** `setViewMode`: the mode is set and persisted, so the next load reads it back. */
    method SetViewMode(mode: ViewMode)
      modifies this
      ensures viewMode == ModeText(mode)
      ensures storage == old(storage)[StorageKey := ModeText(mode)]
      ensures InitialMode(Some(storage[StorageKey])) == viewMode
      ensures windowWidth == old(windowWidth)
      ensures mode != Auto ==> (IsMobile() <==> mode == Mobile)
    {
      viewMode := ModeText(mode);
      storage := storage[StorageKey := ModeText(mode)];
    }

    /** The resize listener. */
    method Resize(width: int)
      modifies this
      ensures windowWidth == width && viewMode == old(viewMode) && storage == old(storage)
    {
      windowWidth := width;
    }
  }
}
