/** `Common::VertexFormat` and `Common::VertexHelper`: a vertex format is a
    set of attribute flags, and each set flag contributes a fixed number of
    floats to one vertex. */
module Vertex {

  /** One attribute flag of a vertex format. */
  datatype FormatFlag = Position3 | Normal3 | TexCoord2 | TexCoord3 | Color4 | Tangent4

  /** A vertex format: the flags whose bits are set. */
  type VertexFormat = set<FormatFlag>

  /** `sizeof(float)`. */
  const SizeOfFloat: nat := 4

  /** Number of floats one attribute occupies, as its name says. */
  function Width(flag: FormatFlag): nat {
    match flag
    case Position3 => 3
    case Normal3 => 3
    case TexCoord2 => 2
    case TexCoord3 => 3
    case Color4 => 4
    case Tangent4 => 4
  }

  /** Reference definition: the widths of the set flags, summed over the set. */
  ghost function WidthSum(format: VertexFormat): nat
    decreases format
  {
    if format == {} then 0 else var f :| f in format; Width(f) + WidthSum(format - {f})
  }

  /** `VertexHelper::GetNumberOfFloats`: one test per flag, in declaration order. */
  function NumberOfFloats(format: VertexFormat): (n: nat)
    ensures n <= 19
    ensures Position3 in format ==> n >= 3
  {
    (if Position3 in format then 3 else 0)
    + (if Normal3 in format then 3 else 0)
    + (if TexCoord2 in format then 2 else 0)
    + (if TexCoord3 in format then 3 else 0)
    + (if Color4 in format then 4 else 0)
    + (if Tangent4 in format then 4 else 0)
  }

  /** `VertexHelper::GetSizeInBytes`: the byte size of one vertex. */
  function SizeInBytes(format: VertexFormat): (bytes: nat)
    ensures bytes % SizeOfFloat == 0
    ensures bytes / SizeOfFloat == NumberOfFloats(format)
    ensures bytes <= 76
  {
    SizeOfFloat * NumberOfFloats(format)
  }

  /** Removing one flag from a format removes exactly its width. */
  lemma NumberOfFloatsRemove(format: VertexFormat, f: FormatFlag)
    requires f in format
    ensures NumberOfFloats(format) == Width(f) + NumberOfFloats(format - {f})
  {
  }

  lemma {:induction false} WidthSumRemove(format: VertexFormat, f: FormatFlag)
    requires f in format
    ensures WidthSum(format) == Width(f) + WidthSum(format - {f})
    decreases format
  {
    var g :| g in format && WidthSum(format) == Width(g) + WidthSum(format - {g});
    if g != f {
      WidthSumRemove(format - {g}, f);
      WidthSumRemove(format - {f}, g);
      assert format - {g} - {f} == format - {f} - {g};
    }
  }

  /** The float count is the sum of the widths of exactly the set flags. */
  lemma {:induction false} NumberOfFloatsIsWidthSum(format: VertexFormat)
    ensures NumberOfFloats(format) == WidthSum(format)
    decreases format
  {
    if format != {} {
      var f :| f in format;
      NumberOfFloatsRemove(format, f);
      WidthSumRemove(format, f);
      NumberOfFloatsIsWidthSum(format - {f});
    }
  }

  /** Only the empty format has no floats. */
  lemma NumberOfFloatsZeroIffEmpty(format: VertexFormat)
    ensures NumberOfFloats(format) == 0 <==> format == {}
  {
    if format != {} {
      var f :| f in format;
      NumberOfFloatsRemove(format, f);
    }
  }

  /** Formats with no flag in common contribute their float counts independently. */
  lemma {:induction false} WidthSumAdditive(a: VertexFormat, b: VertexFormat)
    requires a !! b
    ensures WidthSum(a + b) == WidthSum(a) + WidthSum(b)
    decreases a
  {
    if a != {} {
      var f :| f in a;
      WidthSumRemove(a, f);
      WidthSumRemove(a + b, f);
      assert (a + b) - {f} == (a - {f}) + b;
      WidthSumAdditive(a - {f}, b);
    } else {
      assert a + b == b;
    }
  }

  /** `GetNumberOfFloats` is additive over disjoint formats. */
  lemma NumberOfFloatsAdditive(a: VertexFormat, b: VertexFormat)
    requires a !! b
    ensures NumberOfFloats(a + b) == NumberOfFloats(a) + NumberOfFloats(b)
  {
    NumberOfFloatsIsWidthSum(a);
    NumberOfFloatsIsWidthSum(b);
    NumberOfFloatsIsWidthSum(a + b);
    WidthSumAdditive(a, b);
  }
}

/** `Core::VertexHelper`, a second copy of the same helper in the `Core`
    namespace. It reads the same flags. */
module CoreVertex {
  import V = Vertex

  /** `Core::VertexHelper::GetNumberOfFloats`. */
  function NumberOfFloats(format: V.VertexFormat): (n: nat)
    ensures n <= 19
  {
    (if V.Position3 in format then 3 else 0)
    + (if V.Normal3 in format then 3 else 0)
    + (if V.TexCoord2 in format then 2 else 0)
    + (if V.TexCoord3 in format then 3 else 0)
    + (if V.Color4 in format then 4 else 0)
    + (if V.Tangent4 in format then 4 else 0)
  }

  /** `Core::VertexHelper::GetSizeInBytes`. */
  function SizeInBytes(format: V.VertexFormat): (bytes: nat)
    ensures bytes % V.SizeOfFloat == 0
    ensures bytes / V.SizeOfFloat == NumberOfFloats(format)
  {
    V.SizeOfFloat * NumberOfFloats(format)
  }

  /** The Core copy agrees with the Common copy on every format, in floats and bytes. */
  lemma AgreesWithCommon(format: V.VertexFormat)
    ensures NumberOfFloats(format) == V.NumberOfFloats(format)
    ensures SizeInBytes(format) == V.SizeInBytes(format)
    ensures NumberOfFloats(format) == V.WidthSum(format)
  {
    V.NumberOfFloatsIsWidthSum(format);
  }
}
