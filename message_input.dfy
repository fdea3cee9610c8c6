/** The message box: its text, the selected attachment, and the emoji and GIF pickers. Picking an
    emoji or a GIF appends to the text; a selected file disables the text and picker controls.
    Closing a picker by clicking outside it is left out. */
module MessageInput {
  import opened Wrappers
  import opened Strings
  import opened FilePreview

  /** Which pickers are open. */
  datatype Pickers = Pickers(emojiOpen: bool, gifOpen: bool)

  /** The GIF button: flips the GIF picker and closes the emoji picker. */
  function ToggleGif(p: Pickers): (r: Pickers)
    ensures r.gifOpen == !p.gifOpen && !r.emojiOpen
  {
    Pickers(false, !p.gifOpen)
  }

  /** The emoji button: flips the emoji picker and leaves the GIF picker as it is. */
  function ToggleEmoji(p: Pickers): (r: Pickers)
    ensures r.emojiOpen == !p.emojiOpen && r.gifOpen == p.gifOpen
  {
    Pickers(!p.emojiOpen, p.gifOpen)
  }

  /** Pressing the emoji button twice restores the pickers. */
  lemma ToggleEmojiTwice(p: Pickers)
    ensures ToggleEmoji(ToggleEmoji(p)) == p
  {
  }

  /** Pressing the GIF button twice restores the GIF picker and leaves the emoji picker closed. */
  lemma ToggleGifTwice(p: Pickers)
    ensures ToggleGif(ToggleGif(p)) == Pickers(false, p.gifOpen)
  {
  }

  /** Only the GIF button closes the other picker: opening the emoji picker over an open GIF
      picker leaves both open. */
  lemma BothPickersCanBeOpen()
    ensures ToggleEmoji(ToggleGif(Pickers(false, false))) == Pickers(true, true)
  {
  }

  /** The send button is disabled iff the trimmed text is empty and no file is selected. */
  predicate SendDisabled(messageText: string, file: Option<SelectedFile>) {
    Trim(messageText) == [] && file.None?
  }

  /** With a file selected sending is always possible; without one, exactly for text that is
      not all white space. */
  lemma SendEnabledIff(messageText: string, file: Option<SelectedFile>)
    ensures !SendDisabled(messageText, file) <==> file.Some? || !AllSpace(messageText)
  {
    TrimEmptyIffBlank(messageText);
  }

  class MessageInputState {
    var messageText: string
    var selectedFile: Option<SelectedFile>
    var pickers: Pickers

    constructor (text: string, file: Option<SelectedFile>)
      ensures messageText == text && selectedFile == file && pickers == Pickers(false, false)
    {
      messageText := text;
      selectedFile := file;
      pickers := Pickers(false, false);
    }

    /** The attach, GIF, text and emoji controls are disabled while a file is selected. */
    predicate ControlsDisabled()
      reads this
    {
      selectedFile.Some?
    }

    /** Typing into the text box. */
    method OnChange(text: string)
      modifies this
      ensures messageText == text && selectedFile == old(selectedFile) && pickers == old(pickers)
    {
      messageText := text;
    }

    method PressGifButton()
      modifies this
      ensures pickers == ToggleGif(old(pickers))
      ensures messageText == old(messageText) && selectedFile == old(selectedFile)
    {
      pickers := ToggleGif(pickers);
    }

    method PressEmojiButton()
      modifies this
      ensures pickers == ToggleEmoji(old(pickers))
      ensures messageText == old(messageText) && selectedFile == old(selectedFile)
    {
      pickers := ToggleEmoji(pickers);
    }

    /** `handleGifSelect`: the GIF URL goes at the end of the text. */
    method SelectGif(gifUrl: string)
      modifies this
      ensures messageText == old(messageText) + gifUrl
      ensures selectedFile == old(selectedFile) && pickers == old(pickers)
    {
      messageText := messageText + gifUrl;
    }

    /** `handleEmojiSelect`: the emoji's native text goes at the end of the text. */
    method SelectEmoji(native: string)
      modifies this
      ensures messageText == old(messageText) + native
      ensures selectedFile == old(selectedFile) && pickers == old(pickers)
    {
      messageText := messageText + native;
    }

    /** The preview's remove button clears the selected file, which enables the controls
        again. */
    method RemoveFile()
      modifies this
      ensures selectedFile.None? && !ControlsDisabled()
      ensures messageText == old(messageText) && pickers == old(pickers)
    {
      selectedFile := None;
    }
  }
}
