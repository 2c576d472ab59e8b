/**
 * One announcement card (src/Screen/AnnouncementSingleView.js): collapsed it
 * previews the first 100 characters of the content, expanded it shows all
 * of it; a tap flips between the two.
 */
module AnnouncementSingleView {

  /** The number of characters a collapsed card keeps before the ellipsis. */
  const PreviewLength: nat := 100

  function Min(a: nat, b: nat): nat { if a < b then a else b }

  /**
   * The text the card shows.  Expanded, the whole content.  Collapsed, content
   * longer than 100 characters is cut to its first 100 characters and "..."
   * is added; shorter content is shown unchanged.
   */
  function ShownText(content: string, isExpanded: bool): (text: string)
    ensures isExpanded ==> text == content
    ensures !isExpanded ==> |text| <= PreviewLength + 3
    ensures !isExpanded ==> |text| >= Min(PreviewLength, |content|)
    ensures text[..Min(PreviewLength, |content|)] == content[..Min(PreviewLength, |content|)]
    ensures !isExpanded && |content| <= PreviewLength ==> text == content
    ensures !isExpanded && |content| > PreviewLength ==> text[PreviewLength..] == "..."
  {
    if isExpanded then content
    else if |content| > PreviewLength then content[..PreviewLength] + "..."
    else content
  }

  /** Collapsed text never loses information for short content and is always at most 103 characters. */
  lemma CollapsedIsPrefixPlusEllipsis(content: string)
    ensures var t := ShownText(content, false);
            (t == content) || (|content| > PreviewLength && t == content[..PreviewLength] + "...")
  {
  }

  class AnnouncementCard {
    const title: string
    const content: string
    var isExpanded: bool

    /** The card starts collapsed. */
    constructor (title: string, content: string)
      ensures this.title == title && this.content == content && !isExpanded
    {
      this.title := title;
      this.content := content;
      isExpanded := false;
    }

    /** `toggleContent` */
    method ToggleContent()
      modifies this
      ensures isExpanded == !old(isExpanded)
    {
      isExpanded := !isExpanded;
    }

    function Text(): (text: string)
      reads this
      ensures isExpanded ==> text == content
      ensures !isExpanded ==> |text| <= PreviewLength + 3
    {
      ShownText(content, isExpanded)
    }
  }

  /** Two taps bring the card back to what it showed before. */
  method TapTwice(card: AnnouncementCard)
    modifies card
    ensures card.isExpanded == old(card.isExpanded)
    ensures card.Text() == old(card.Text())
  {
    card.ToggleContent();
    card.ToggleContent();
  }
}
