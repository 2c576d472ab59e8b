/**
 * `splitStyles` (src/utils/splitStyles.js): normalises a style argument so
 * that callers can spread it: nothing becomes an empty style object, an
 * array stays as it is, and a single style is wrapped in an array.
 */
module SplitStyles {

  /** A style argument: a falsy value, one style object, or an array of styles. */
  datatype Style = Falsy | Object(props: map<string, string>) | Array(items: seq<Style>)

  function SplitStyles(styles: Style): (r: Style)
    ensures styles.Falsy? ==> r == Object(map[])
    ensures styles.Array? ==> r == styles
    ensures styles.Object? ==> r == Array([styles])
    ensures !r.Falsy?
  {
    match styles
    case Falsy => Object(map[])
    case Array(_) => styles
    case Object(_) => Array([styles])
  }

  /** For a truthy argument the result is always an array, and splitting it again changes nothing. */
  lemma SplitStylesIdempotent(styles: Style)
    requires !styles.Falsy?
    ensures SplitStyles(styles).Array?
    ensures SplitStyles(SplitStyles(styles)) == SplitStyles(styles)
  {
  }

  /** The style objects a result carries are exactly those the argument carried. */
  lemma SplitStylesKeepsObjects(styles: Style, s: Style)
    requires !styles.Falsy?
    ensures s in SplitStyles(styles).items <==> (styles.Array? && s in styles.items) || (styles.Object? && s == styles)
  {
  }
}
