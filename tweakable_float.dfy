/** The TweakableFloat type of optimizer.go: an optimizable float in the
    range -Inf to +Inf, used for the camera distortion coefficients. */
module TweakableFloats {
  import InputText

  type TweakableFloat = real

  function TweakableValue(t: TweakableFloat): (r: real)
    ensures r == t
  {
    t
  }

  function SetTweakableValue(t: TweakableFloat, v: real): (r: TweakableFloat)
  {
    v
  }

  /** Reading back after a write yields the written value. */
  lemma SetThenGet(t: TweakableFloat, v: real)
    ensures TweakableValue(SetTweakableValue(t, v)) == v
  {
  }

  /** The stored value after the user typed `text`: commas count as decimal
      points, and a text that does not parse leaves the value unchanged. */
  function SetInputValue(t: TweakableFloat, text: string, parse: InputText.Parser): (r: TweakableFloat)
    ensures parse(InputText.CommaToPoint(text)).None? ==> r == t
    ensures parse(InputText.CommaToPoint(text)).Some? ==> r == parse(InputText.CommaToPoint(text)).value
  {
    InputText.ParsedOr(t, text, parse)
  }
}
