/** The text-to-number step shared by the input handlers of
    pixel-distance.go and optimizer.go: commas become decimal points, then
    the text is parsed. */
module InputText {
  import opened Wrappers

  /** Go's strconv.ParseFloat, outside the model: Some(value) when the text
      parses, None when it reports an error. */
  type Parser = string -> Option<real>

  /** strings.ReplaceAll(s, ",", "."): every comma becomes a decimal point,
      every other character is kept. */
  function CommaToPoint(s: string): (r: string)
    ensures |r| == |s|
    ensures forall i :: 0 <= i < |s| ==> r[i] == (if s[i] == ',' then '.' else s[i])
  {
    if s == [] then []
    else [if s[0] == ',' then '.' else s[0]] + CommaToPoint(s[1..])
  }

  /** The replaced text contains no comma. */
  lemma NoCommaLeft(s: string)
    ensures ',' !in CommaToPoint(s)
  {
  }

  /** Text without commas is left alone. */
  lemma NoCommaUnchanged(s: string)
    requires ',' !in s
    ensures CommaToPoint(s) == s
  {
  }

  /** The value an input handler stores: the parsed number, or the previous
      value when parsing fails. */
  function ParsedOr(previous: real, text: string, parse: Parser): (r: real)
    ensures parse(CommaToPoint(text)).None? ==> r == previous
    ensures parse(CommaToPoint(text)).Some? ==> r == parse(CommaToPoint(text)).value
  {
    match parse(CommaToPoint(text))
    case None => previous
    case Some(v) => v
  }

  /** A comma and a point in the same place give the same stored value. */
  lemma CommaActsAsPoint(previous: real, a: string, b: string, parse: Parser)
    requires |a| == |b|
    requires forall i :: 0 <= i < |a| ==> a[i] == b[i] || (a[i] == ',' && b[i] == '.')
    ensures ParsedOr(previous, a, parse) == ParsedOr(previous, b, parse)
  {
    assert CommaToPoint(a) == CommaToPoint(b);
  }
}
