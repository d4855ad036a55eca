/** pixel-distance.go: a length or absolute position in pixels. */
module PixelDistances {
  import InputText
  import TweakableFloats
  import Util

  type PixelDistance = real

  function Pixels(p: PixelDistance): (r: real)
    ensures r == p
  {
    p
  }

  /** The value mapped into optimizer space: the pixel distance itself. */
  function TweakableValue(p: PixelDistance): (r: real)
    ensures r == p
  {
    p
  }

  /** The stored pixel distance after applying a value from optimizer space. */
  function SetTweakableValue(p: PixelDistance, v: real): (r: PixelDistance)
  {
    v
  }

  lemma SetThenGet(p: PixelDistance, v: real)
    ensures TweakableValue(SetTweakableValue(p, v)) == v
  {
  }

  /** The square of the pixel distance. */
  function Sqr(p: PixelDistance): (r: real)
    ensures r >= 0.0
  {
    Util.Sqr(p)
  }

  lemma SqrNeg(p: PixelDistance)
    ensures Sqr(-p) == Sqr(p)
  {
  }

  /** The stored value after the user typed `text`: commas count as decimal
      points, and a text that does not parse leaves the value unchanged. */
  function SetInputValue(p: PixelDistance, text: string, parse: InputText.Parser): (r: PixelDistance)
    ensures parse(InputText.CommaToPoint(text)).None? ==> r == p
    ensures parse(InputText.CommaToPoint(text)).Some? ==> r == parse(InputText.CommaToPoint(text)).value
  {
    TweakableFloats.SetInputValue(p, text, parse)
  }
}
