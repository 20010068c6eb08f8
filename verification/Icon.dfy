/** The generated icon: scanlines of pixels, each line led by a filter byte. */
module Icon {
  import opened Prelude
  import opened Checksums
  import opened Png
  import opened PngFile

  /** The colour of the icon, and which pixels are inside its rounded square. */
  datatype Design = Design(r: Octet, g: Octet, b: Octet, inside: (nat, nat) -> bool)

  function Pixel(d: Design, x: nat, y: nat): (p: Octets)
    ensures |p| == 4
  {
    if d.inside(x, y) then [d.r, d.g, d.b, 255] else [0, 0, 0, 0]
  }

  /** The filter byte of line `y` and its first `n` pixels. */
  function Line(d: Design, y: nat, n: nat): (s: Octets)
    ensures |s| == 1 + 4 * n
  {
    if n == 0 then [0] else Line(d, y, n - 1) + Pixel(d, n - 1, y)
  }

  /** The first `n` lines. */
  function Lines(d: Design, size: nat, n: nat): Octets {
    if n == 0 then [] else Lines(d, size, n - 1) + Line(d, n - 1, size)
  }

  lemma {:induction false} LinesSize(d: Design, size: nat, n: nat)
    ensures |Lines(d, size, n)| == n * (1 + 4 * size)
  {
    if n > 0 {
      LinesSize(d, size, n - 1);
      assert n * (1 + 4 * size) == (n - 1) * (1 + 4 * size) + (1 + 4 * size);
    }
  }

  method PwaIcon(d: Design, size: nat) returns (out: Octets)
    requires size < 0x1_0000_0000
    ensures out == File(size, size, Lines(d, size, size))
  {
    var raw: Octets := [];
    for y := 0 to size
      invariant raw == Lines(d, size, y)
    {
      ghost var above := raw;
      raw := raw + [0];
      for x := 0 to size
        invariant raw == above + Line(d, y, x)
      {
        Assoc(above, Line(d, y, x), Pixel(d, x, y));
        if d.inside(x, y) {
          raw := raw + [d.r, d.g, d.b, 255];
        } else {
          raw := raw + [0, 0, 0, 0];
        }
      }
    }
    out := PngEncode(size, size, raw);
  }

  /** Line `y` of an image whose lines hold `size` four-byte pixels. */
  function LineAt(raw: Octets, size: nat, y: nat): Octets
    requires y * (1 + 4 * size) + (1 + 4 * size) <= |raw|
  {
    raw[y * (1 + 4 * size)..y * (1 + 4 * size) + (1 + 4 * size)]
  }

  lemma {:induction false} LinesAt(d: Design, size: nat, n: nat, y: nat)
    requires y < n
    ensures y * (1 + 4 * size) + (1 + 4 * size) <= |Lines(d, size, n)|
    ensures LineAt(Lines(d, size, n), size, y) == Line(d, y, size)
  {
    var above := Lines(d, size, n - 1);
    LinesSize(d, size, n - 1);
    LinesSize(d, size, n);
    if y == n - 1 {
      LastLine(above, Line(d, y, size), size, y);
    } else {
      LinesAt(d, size, n - 1, y);
      EarlierLine(above, Line(d, n - 1, size), size, y);
    }
  }

  lemma LastLine(above: Octets, line: Octets, size: nat, y: nat)
    requires |above| == y * (1 + 4 * size) && |line| == 1 + 4 * size
    ensures LineAt(above + line, size, y) == line
  {
  }

  lemma EarlierLine(above: Octets, line: Octets, size: nat, y: nat)
    requires y * (1 + 4 * size) + (1 + 4 * size) <= |above|
    ensures LineAt(above + line, size, y) == LineAt(above, size, y)
  {
  }

  lemma {:induction false} LinePixels(d: Design, y: nat, n: nat, x: nat)
    requires x < n
    ensures Line(d, y, n)[0] == 0 && Line(d, y, n)[1 + 4 * x..5 + 4 * x] == Pixel(d, x, y)
  {
    if n == 1 { assert Line(d, y, 0) == [0]; }
    if x < n - 1 {
      LinePixels(d, y, n - 1, x);
    } else {
      FilterByte(d, y, n);
    }
  }

  lemma {:induction false} FilterByte(d: Design, y: nat, n: nat)
    ensures Line(d, y, n)[0] == 0
  {
    if n > 0 { FilterByte(d, y, n - 1); }
  }

  /** Pixel (x, y) of the raw lines is the design's, and its line is unfiltered. */
  predicate Shows(raw: Octets, size: nat, d: Design, x: nat, y: nat) {
    && x < size && y * (1 + 4 * size) + (1 + 4 * size) <= |raw|
    && LineAt(raw, size, y)[0] == 0
    && LineAt(raw, size, y)[1 + 4 * x..5 + 4 * x] == if d.inside(x, y) then [d.r, d.g, d.b, 0xff] else [0, 0, 0, 0]
  }

  /** Read back, the icon is `size` by `size`, holds exactly its lines, and every pixel is
      the opaque colour inside the shape and transparent outside it. */
  lemma IconShows(d: Design, size: nat, x: nat, y: nat, raw: Octets)
    requires x < size && y < size < 0x1_0000_0000 && raw == Lines(d, size, size) && Encodable(|raw|)
    ensures ReadImage(File(size, size, raw)) == Some(Image(size, size, raw))
    ensures |raw| == size * (1 + 4 * size) && Shows(raw, size, d, x, y)
  {
    LinesSize(d, size, size);
    EncodedReadsBack(size, size, raw);
    LinesAt(d, size, size, y);
    LinePixels(d, y, size, x);
  }
}
