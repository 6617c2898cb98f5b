/**
 * JavaScript template literals: fixed text interleaved with interpolated
 * values. Fixed text is kept symbolic (a sequence of fragment names, each
 * module saying what its fragments read), so that properties of the values
 * can be stated without spelling out the surrounding markup.
 */
module Templating {

  /** `segments[0]` `${values[0]}` `segments[1]` ... `segments[n]`, each segment a run of fragments. */
  datatype Template<F> = Template(segments: seq<seq<F>>, values: seq<string>)

  /** One more segment than values, as in every template literal. */
  predicate WellFormed<F>(t: Template<F>) {
    |t.segments| == |t.values| + 1
  }

  /** The text of a run of fragments. */
  function FixedText<F>(fs: seq<F>, text: F -> string): string {
    if fs == [] then "" else text(fs[0]) + FixedText(fs[1..], text)
  }

  lemma {:induction false} FixedTextAppend<F>(a: seq<F>, b: seq<F>, text: F -> string)
    ensures FixedText(a + b, text) == FixedText(a, text) + FixedText(b, text)
  {
    if a != [] {
      assert (a + b)[0] == a[0];
      assert (a + b)[1..] == a[1..] + b;
      FixedTextAppend(a[1..], b, text);
      assert FixedText(a + b, text) == text(a[0]) + (FixedText(a[1..], text) + FixedText(b, text));
    } else {
      assert a + b == b;
    }
  }

  /** The string the template literal evaluates to. */
  function Render<F>(t: Template<F>, text: F -> string): string
    decreases |t.segments|
  {
    if t.segments == [] then ""
    else if t.values == [] then FixedText(t.segments[0], text)
    else FixedText(t.segments[0], text) + t.values[0] + Render(Template(t.segments[1..], t.values[1..]), text)
  }

  /** Fixed text put in front of the first segment. */
  function Prepend<F>(prefix: seq<F>, t: Template<F>): (r: Template<F>)
    ensures r.values == t.values
    ensures WellFormed(t) ==> WellFormed(r)
  {
    if t.segments == [] then Template([prefix], t.values)
    else Template([prefix + t.segments[0]] + t.segments[1..], t.values)
  }

  /** Fixed text put after the last segment. */
  function Append<F>(t: Template<F>, suffix: seq<F>): (r: Template<F>)
    ensures r.values == t.values
    ensures WellFormed(t) ==> WellFormed(r)
  {
    if t.segments == [] then Template([suffix], t.values)
    else
      var n := |t.segments| - 1;
      Template(t.segments[..n] + [t.segments[n] + suffix], t.values)
  }

  lemma {:induction false} PrependRender<F>(prefix: seq<F>, t: Template<F>, text: F -> string)
    requires WellFormed(t)
    ensures Render(Prepend(prefix, t), text) == FixedText(prefix, text) + Render(t, text)
  {
    var r := Prepend(prefix, t);
    assert r.segments[0] == prefix + t.segments[0];
    FixedTextAppend(prefix, t.segments[0], text);
    if t.values == [] {
      assert Render(r, text) == FixedText(prefix + t.segments[0], text);
    } else {
      var rest := Template(t.segments[1..], t.values[1..]);
      assert Template(r.segments[1..], r.values[1..]) == rest;
      assert Render(r, text) == FixedText(prefix + t.segments[0], text) + t.values[0] + Render(rest, text);
    }
  }

  lemma {:induction false} AppendRender<F>(t: Template<F>, suffix: seq<F>, text: F -> string)
    requires WellFormed(t)
    ensures Render(Append(t, suffix), text) == Render(t, text) + FixedText(suffix, text)
    decreases |t.values|
  {
    if t.values == [] {
      FixedTextAppend(t.segments[0], suffix, text);
    } else {
      var tail := Template(t.segments[1..], t.values[1..]);
      assert Append(t, suffix).segments[1..] == Append(tail, suffix).segments;
      AppendRender(tail, suffix, text);
    }
  }

  /**
   * Splicing a template between fixed text renders as interpolating the
   * rendered template there.
   */
  lemma {:induction false} SpliceRender<F>(prefix: seq<F>, t: Template<F>, suffix: seq<F>, text: F -> string)
    requires WellFormed(t)
    ensures Render(Append(Prepend(prefix, t), suffix), text)
         == Render(Template([prefix, suffix], [Render(t, text)]), text)
  {
    AppendRender(Prepend(prefix, t), suffix, text);
    PrependRender(prefix, t, text);
  }
}
