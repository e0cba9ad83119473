/**
  The page shell (client/src/App.tsx): two flags that decide whether the assistant
  panel is shown and whether it opens on the build information, the three handlers
  that set them, and the panel they are passed to as props.
 */
module App {
  import opened AIPanel

  class Shell {
    var isAIPanelOpen: bool
    var openToBuildInfo: bool
    /** The one `AIPanel` element; it stays mounted while the panel is closed. */
    const panel: Session

    /** The panel's props are exactly the two flags. */
    ghost predicate Valid()
      reads this, panel
    {
      panel.Valid() && panel.isOpen == isAIPanelOpen && panel.openToBuildInfo == openToBuildInfo
    }

    constructor ()
      ensures Valid() && fresh(panel)
      ensures !isAIPanelOpen && !openToBuildInfo
      ensures panel.catalog == Suggestions && panel.messages == [] && panel.inputValue == ""
      ensures !panel.isTyping && !panel.showBuildInfo && panel.shuffledSuggestions == []
    {
      isAIPanelOpen, openToBuildInfo := false, false;
      panel := new Session();
    }

    /** Passes the current flags to the panel, which runs its open effect. */
    method Render(choices: seq<nat>)
      requires panel.Valid()
      modifies panel
      ensures Valid()
      ensures ResetFires(old(panel.isOpen), old(panel.openToBuildInfo), isAIPanelOpen, openToBuildInfo) ==>
                && panel.messages == [] && panel.inputValue == "" && !panel.isTyping
                && panel.showBuildInfo == openToBuildInfo
                && panel.shuffledSuggestions == Shuffle(panel.catalog, choices)
      ensures !ResetFires(old(panel.isOpen), old(panel.openToBuildInfo), isAIPanelOpen, openToBuildInfo) ==>
                && panel.messages == old(panel.messages) && panel.inputValue == old(panel.inputValue)
                && panel.isTyping == old(panel.isTyping) && panel.showBuildInfo == old(panel.showBuildInfo)
                && panel.shuffledSuggestions == old(panel.shuffledSuggestions)
    {
      panel.Receive(isAIPanelOpen, openToBuildInfo, choices);
    }

    /** "Ask AI": opens the panel on the chat side.  Coming from a closed panel (or
        from the build-info entry point) the panel starts a fresh session on the
        welcome screen with newly shuffled suggestions. */
    method HandleOpenAI(choices: seq<nat>)
      requires Valid()
      modifies this, panel
      ensures Valid()
      ensures isAIPanelOpen && !openToBuildInfo
      ensures !old(isAIPanelOpen) || old(openToBuildInfo) ==>
                && panel.messages == [] && panel.inputValue == "" && !panel.isTyping
                && !panel.showBuildInfo && panel.DisplayMode() == Welcome
                && panel.shuffledSuggestions == Shuffle(panel.catalog, choices)
      ensures old(isAIPanelOpen) && !old(openToBuildInfo) ==>
                && panel.messages == old(panel.messages) && panel.isTyping == old(panel.isTyping)
                && panel.showBuildInfo == old(panel.showBuildInfo)
                && panel.inputValue == old(panel.inputValue)
                && panel.shuffledSuggestions == old(panel.shuffledSuggestions)
    {
      openToBuildInfo := false;
      isAIPanelOpen := true;
      Render(choices);
    }

    /** The footer's build-info link: opens the panel on the build information.
        Coming from a closed panel (or from the chat entry point) the session is
        fresh and shows the build information. */
    method HandleOpenAIBuildInfo(choices: seq<nat>)
      requires Valid()
      modifies this, panel
      ensures Valid()
      ensures isAIPanelOpen && openToBuildInfo
      ensures !old(isAIPanelOpen) || !old(openToBuildInfo) ==>
                && panel.messages == [] && panel.inputValue == "" && !panel.isTyping
                && panel.showBuildInfo && panel.DisplayMode() == BuildInfo
                && panel.shuffledSuggestions == Shuffle(panel.catalog, choices)
      ensures old(isAIPanelOpen) && old(openToBuildInfo) ==>
                && panel.messages == old(panel.messages) && panel.isTyping == old(panel.isTyping)
                && panel.showBuildInfo == old(panel.showBuildInfo)
                && panel.inputValue == old(panel.inputValue)
                && panel.shuffledSuggestions == old(panel.shuffledSuggestions)
    {
      openToBuildInfo := true;
      isAIPanelOpen := true;
      Render(choices);
    }

    /** The panel's close button and overlay: clears both flags.  The panel keeps its
        conversation (it is reset by the next opening, not by closing), so closing is
        idempotent: a second call finds both flags false and leaves them so. */
    method HandleClose()
      requires Valid()
      modifies this, panel
      ensures Valid()
      ensures !isAIPanelOpen && !openToBuildInfo
      ensures panel.messages == old(panel.messages) && panel.inputValue == old(panel.inputValue)
      ensures panel.isTyping == old(panel.isTyping) && panel.showBuildInfo == old(panel.showBuildInfo)
      ensures panel.shuffledSuggestions == old(panel.shuffledSuggestions)
    {
      isAIPanelOpen := false;
      openToBuildInfo := false;
      Render([]);
    }
  }
}
