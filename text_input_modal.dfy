/**
 * The one-line text prompt used to name artists, playlists and genres:
 * its text box, what it submits, and when it clears.
 */
module TextInput {
  import opened Text

  class TextInputModal {
    var text: string

    /** The text box starts at `defaultValue`. */
    constructor (defaultValue: string)
      ensures text == defaultValue
    {
      text := defaultValue;
    }

    /** The effect on `visible` and `defaultValue`: while visible, the box
        is reset to the default. */
    method OnVisibilityChange(visible: bool, defaultValue: string)
      modifies this
      ensures visible ==> text == defaultValue
      ensures !visible ==> text == old(text)
    {
      if visible {
        text := defaultValue;
      }
    }

    /** `handleSubmit`: blank text submits nothing and is kept; otherwise
        the trimmed text goes to `onSubmit` and the box is emptied. */
    method Submit() returns (submitted: Option<string>)
      modifies this
      ensures submitted == NonBlankTrimmed(old(text))
      ensures submitted.None? <==> AllSpace(old(text))
      ensures submitted.Some? ==> submitted.value == Trim(old(text))
      ensures submitted.None? ==> text == old(text)
      ensures submitted.Some? ==> text == ""
    {
      submitted := NonBlankTrimmed(text);
      if submitted.Some? {
        BlankIffAllSpace(text);
        text := "";
      }
    }

    /** `handleCancel`: call `onCancel`, then empty the box. */
    method Cancel()
      modifies this
      ensures text == ""
    {
      text := "";
    }
  }
}
