/**
 What the icon component draws for the metadata it holds in its state.
 */
module IconView {
  import opened Scan
  import opened SpriteHeader

  /** The component's `iconMeta` state: not yet known, the error marker, or
      the metadata of a parsed sheet. */
  datatype IconState = NoMeta | ErrorMeta | Ready(meta: IconMeta)

  /** The presentation props the caller passes; style values are kept as text. */
  datatype Props = Props(color: string, className: Option<string>, style: map<string, string>)

  const FALLBACK_GLYPH := "?"

  /** Rendered output: nothing, the circular fallback holding a glyph, or a
      container (with the caller's color and class) around an svg that draws
      the sprite element `href` in the coordinate system `viewBox`. */
  datatype View =
    | Nothing
    | Fallback(glyph: string)
    | Svg(color: string, className: Option<string>, viewBox: string, href: string, style: map<string, string>)

  /** The sizes parsed from the sheet, as style entries; an unset size gives no entry. */
  function SizeStyle(meta: IconMeta): (style: map<string, string>)
    ensures "width" in style <==> meta.width.Some?
    ensures meta.width.Some? ==> style["width"] == meta.width.value
    ensures "height" in style <==> meta.height.Some?
    ensures meta.height.Some? ==> style["height"] == meta.height.value
    ensures forall k :: k in style ==> k == "width" || k == "height"
  {
    var w := if meta.width.Some? then map["width" := meta.width.value] else map[];
    var h := if meta.height.Some? then map["height" := meta.height.value] else map[];
    w + h
  }

  function Render(state: IconState, props: Props): (v: View)
    ensures state == NoMeta <==> v == Nothing
    ensures state == ErrorMeta <==> v == Fallback(FALLBACK_GLYPH)
    ensures state.Ready? ==> v.Svg? && v.viewBox == state.meta.viewBox && v.href == "#" + state.meta.id
    ensures state.Ready? ==> v.color == props.color && v.className == props.className
    // the caller's style overrides the parsed sizes key by key
    ensures state.Ready? ==> forall k :: k in props.style ==> k in v.style && v.style[k] == props.style[k]
    ensures state.Ready? && "width" !in props.style ==>
      ("width" in v.style <==> state.meta.width.Some?) &&
      (state.meta.width.Some? ==> v.style["width"] == state.meta.width.value)
    ensures state.Ready? && "height" !in props.style ==>
      ("height" in v.style <==> state.meta.height.Some?) &&
      (state.meta.height.Some? ==> v.style["height"] == state.meta.height.value)
    ensures state.Ready? ==> forall k :: k in v.style ==> k in props.style || k == "width" || k == "height"
  {
    match state
    case NoMeta => Nothing
    case ErrorMeta => Fallback(FALLBACK_GLYPH)
    case Ready(meta) =>
      Svg(props.color, props.className, meta.viewBox, "#" + meta.id, SizeStyle(meta) + props.style)
  }

  /** Whatever the caller's props, a sheet that parsed renders an svg whose
      reference names the first `<g id="icon-…">` group of that same sheet,
      so the drawn element is one the injected sheet defines. */
  lemma RenderedReferenceIsInSheet(contents: string, props: Props)
    requires Parse(contents).Parsed?
    ensures var v := Render(Ready(Parse(contents).meta), props);
      v.Svg? && |v.href| > |"#" + ID_PREFIX| && v.href[..|"#" + ID_PREFIX|] == "#" + ID_PREFIX &&
      FindAttr(contents, ID_OPEN, 0).Some? &&
      FirstAttr(contents, ID_OPEN, FindAttr(contents, ID_OPEN, 0).value.pos, v.href[|"#" + ID_PREFIX|..])
  {
    var m := FindAttr(contents, ID_OPEN, 0).value;
    FindAttrIsFirst(contents, ID_OPEN);
    assert Render(Ready(Parse(contents).meta), props).href[|"#" + ID_PREFIX|..] == m.text;
  }
}
