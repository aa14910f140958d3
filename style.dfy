// Debug colouring of shapes: the float colour of the vector renderer
// (drawing.go, ShapeColor) and the 8-bit colour of the sprite helpers
// (shapes.go and tumble/tumble.go, ColorForShape, two identical copies).
//
// The shape identity hash is the library's HashValue, a Go `uint`; this model
// fixes it at 64 bits, so every add and shift of the mix wraps modulo 2^64.
module ShapeStyle {
  import opened Engine

  /** What the colour policy reads from a shape, its body and its space. */
  datatype ShapeView = ShapeView(
    sensor: bool,
    sleeping: bool,
    idleTime: real,
    sleepTimeThreshold: real,
    hashId: bv64,
    kind: BodyKind)

  /** A float colour (the library's FColor), channels as reals. */
  datatype FColor = FColor(r: real, g: real, b: real, a: real)

  /** Three 8-bit channels taken from a hash. */
  datatype Rgb = Rgb(r: int, g: int, b: int)

  const SensorColor := FColor(1.0, 1.0, 1.0, 0.1)
  const SleepingColor := FColor(0.2, 0.2, 0.2, 1.0)
  const IdleColor := FColor(0.66, 0.66, 0.66, 1.0)

  /** Robert Jenkins' integer mix, on 64-bit words with wrap-around. */
  function Mix(v: bv64): bv64
  {
    var v1 := (v + 0x7ed55d16) + (v << 12);
    var v2 := (v1 ^ 0xc761c23c) ^ (v1 >> 19);
    var v3 := (v2 + 0x165667b1) + (v2 << 5);
    var v4 := (v3 + 0xd3a2646c) ^ (v3 << 9);
    var v5 := (v4 + 0xfd7046c5) + (v4 << 3);
    (v5 ^ 0xb55a4f09) ^ (v5 >> 16)
  }

  /** Bits 0-7, 8-15 and 16-23 of the mixed hash. */
  function HashChannels(hashId: bv64): (c: Rgb)
    ensures 0 <= c.r < 256 && 0 <= c.g < 256 && 0 <= c.b < 256
  {
    var h := Mix(hashId);
    Rgb(((h >> 0) & 0xFF) as int, ((h >> 8) & 0xFF) as int, ((h >> 16) & 0xFF) as int)
  }

  function Max3(c: Rgb): int
  {
    if c.r >= c.g && c.r >= c.b then c.r else if c.g >= c.b then c.g else c.b
  }

  function Min3(c: Rgb): int
  {
    if c.r <= c.g && c.r <= c.b then c.r else if c.g <= c.b then c.g else c.b
  }

  predicate Flat(c: Rgb) { c.r == c.g == c.b }

  function Intensity(kind: BodyKind): real
  {
    if kind == Static then 0.15 else 0.75
  }

  /** The hashed branch of ShapeColor: the mixed hash's channels, stretched. */
  function HashedColor(hashId: bv64, kind: BodyKind): FColor
  {
    Stretch(HashChannels(hashId), kind)
  }

  /** Channels stretched so that min..max spans 0..intensity. */
  function Stretch(c: Rgb, kind: BodyKind): FColor
  {
    var max, min := Max3(c), Min3(c);
    var intensity := Intensity(kind);
    if min == max then FColor(intensity, 0.0, 0.0, 1.0)
    else
      FColor(Stretched(c.r, min, max, intensity), Stretched(c.g, min, max, intensity),
             Stretched(c.b, min, max, intensity), 1.0)
  }

  /** (x - min) * coef with coef = intensity / (max - min). */
  function Stretched(x: int, lo: int, hi: int, i: real): real
    requires lo < hi
  {
    (x - lo) as real * (i / (hi - lo) as real)
  }

  /** ShapeColor: sensor, then sleeping, then idle beyond the threshold, then the hashed colour. */
  function ShapeColor(s: ShapeView): FColor
  {
    if s.sensor then SensorColor
    else if s.sleeping then SleepingColor
    else if s.idleTime > s.sleepTimeThreshold then IdleColor
    else HashedColor(s.hashId, s.kind)
  }

  /** A stretched channel lies in [0, i], is 0 at lo and i at hi. */
  lemma StretchBounds(x: int, lo: int, hi: int, i: real)
    requires lo <= x <= hi && lo < hi && i >= 0.0
    ensures 0.0 <= Stretched(x, lo, hi, i) <= i
    ensures x == lo ==> Stretched(x, lo, hi, i) == 0.0
    ensures x == hi ==> Stretched(x, lo, hi, i) == i
  {
    var d := (hi - lo) as real;
    var coef := i / d;
    assert coef >= 0.0;
    assert (x - lo) as real * coef <= d * coef;
    assert d * coef == i;
  }

  /** Stretching by a positive factor keeps the order of two channels. */
  lemma StretchMonotone(x: int, y: int, lo: int, hi: int, i: real)
    requires lo < hi && i > 0.0
    ensures x <= y <==> Stretched(x, lo, hi, i) <= Stretched(y, lo, hi, i)
  {
    var coef := i / (hi - lo) as real;
    assert coef > 0.0;
    if x <= y {
      assert (x - lo) as real * coef <= (y - lo) as real * coef;
    } else {
      assert (y - lo) as real * coef < (x - lo) as real * coef;
    }
  }

  /**
   * The stretched colour is opaque; flat channels give (intensity, 0, 0);
   * otherwise every channel lies in [0, intensity], the smallest channel goes
   * to 0, the largest to the intensity, and the order of the channels is kept.
   * The intensity, the brightest channel, is 0.15 exactly for static bodies.
   */
  lemma StretchNormalised(c: Rgb, kind: BodyKind)
    ensures var col, i := Stretch(c, kind), Intensity(kind);
      && col.a == 1.0
      && (i == 0.15 <==> kind == Static)
      && (kind != Static ==> i == 0.75)
      && (Flat(c) ==> col == FColor(i, 0.0, 0.0, 1.0))
      && (!Flat(c) ==>
            && 0.0 <= col.r <= i && 0.0 <= col.g <= i && 0.0 <= col.b <= i
            && (c.r == Min3(c) ==> col.r == 0.0) && (c.r == Max3(c) ==> col.r == i)
            && (c.g == Min3(c) ==> col.g == 0.0) && (c.g == Max3(c) ==> col.g == i)
            && (c.b == Min3(c) ==> col.b == 0.0) && (c.b == Max3(c) ==> col.b == i)
            && (c.r <= c.g <==> col.r <= col.g)
            && (c.g <= c.b <==> col.g <= col.b)
            && (c.r <= c.b <==> col.r <= col.b))
  {
    var i := Intensity(kind);
    var max, min := Max3(c), Min3(c);
    if !Flat(c) {
      assert min < max;
      StretchBounds(c.r, min, max, i);
      StretchBounds(c.g, min, max, i);
      StretchBounds(c.b, min, max, i);
      StretchMonotone(c.r, c.g, min, max, i);
      StretchMonotone(c.g, c.b, min, max, i);
      StretchMonotone(c.r, c.b, min, max, i);
    }
  }

  /** A hashed colour always has a zero channel, so it is never one of the grey state colours. */
  lemma StretchNotGrey(c: Rgb, kind: BodyKind)
    ensures var col := Stretch(c, kind); col.a == 1.0 && (col.g == 0.0 || col.r == 0.0 || col.b == 0.0)
    ensures Stretch(c, kind) != SleepingColor && Stretch(c, kind) != IdleColor
  {
    if !Flat(c) {
      var max, min := Max3(c), Min3(c);
      StretchBounds(min, min, max, Intensity(kind));
    }
  }

  /**
   * The colour tells the state apart: translucency means a sensor, the dark
   * grey means a sleeping body, the light grey a body idle beyond the sleep
   * threshold, and any other colour an awake body's hashed colour.
   */
  lemma ShapeColorIdentifiesState(s: ShapeView)
    ensures ShapeColor(s).a < 1.0 <==> s.sensor
    ensures ShapeColor(s) == SleepingColor <==> !s.sensor && s.sleeping
    ensures ShapeColor(s) == IdleColor <==> !s.sensor && !s.sleeping && s.idleTime > s.sleepTimeThreshold
    ensures !s.sensor && !s.sleeping && s.idleTime <= s.sleepTimeThreshold ==>
              ShapeColor(s) == HashedColor(s.hashId, s.kind)
  {
    StretchNotGrey(HashChannels(s.hashId), s.kind);
  }

  // ---------------------------------------------------------------------
  // The 8-bit copy (ColorForShape).

  /** An 8-bit colour, non-premultiplied (Go's color.NRGBA). */
  datatype NRGBA = NRGBA(r: int, g: int, b: int, a: int)

  predicate IsByte(x: int) { 0 <= x < 256 }

  /** Go's uint8(x) for a float x in range: truncation. */
  function ToUint8(x: real): (b: int)
    requires 0.0 <= x < 256.0
    ensures IsByte(b) && b as real <= x < b as real + 1.0
  {
    x.Floor
  }

  /**
   * uint8(255 * (x - min) * coef). Over the reals the product is associative,
   * so this is 255 times the float copy's channel, truncated.
   */
  function StretchByte(x: int, lo: int, hi: int, i: real): (b: int)
    requires lo <= x <= hi && lo < hi && 0.0 <= i < 1.0
  {
    StretchBounds(x, lo, hi, i);
    ToUint8(255.0 * Stretched(x, lo, hi, i))
  }

  /**
   * The hashed branch of ColorForShape on given channels. The source writes
   * alpha 1 for flat channels (flatAlpha == 1); 255 is the evident intent.
   */
  function StretchBytes(c: Rgb, kind: BodyKind, flatAlpha: int): NRGBA
  {
    var max, min := Max3(c), Min3(c);
    var intensity := Intensity(kind);
    if min == max then NRGBA(ToUint8(255.0 * intensity), 0, 0, flatAlpha)
    else NRGBA(StretchByte(c.r, min, max, intensity), StretchByte(c.g, min, max, intensity),
               StretchByte(c.b, min, max, intensity), 255)
  }

  const SensorNRGBA := NRGBA(255, 255, 255, 255 / 10)
  const SleepingNRGBA := NRGBA(255 / 20, 255 / 20, 255 / 20, 255)
  const IdleNRGBA := NRGBA(255 * 2 / 3, 255 * 2 / 3, 255 * 2 / 3, 255)

  /** ColorForShape as written in shapes.go and tumble/tumble.go. */
  function ColorForShapeAsWritten(s: ShapeView): NRGBA
  {
    if s.sensor then SensorNRGBA
    else if s.sleeping then SleepingNRGBA
    else if s.idleTime > s.sleepTimeThreshold then IdleNRGBA
    else StretchBytes(HashChannels(s.hashId), s.kind, 1)
  }

  /** ColorForShape with the flat-hash alpha corrected to 255. */
  function ColorForShape(s: ShapeView): NRGBA
  {
    if s.sensor then SensorNRGBA
    else if s.sleeping then SleepingNRGBA
    else if s.idleTime > s.sleepTimeThreshold then IdleNRGBA
    else StretchBytes(HashChannels(s.hashId), s.kind, 255)
  }

  /** One stretched byte is at most uint8(255 * i), and 0 at the minimum. */
  lemma StretchByteBounds(x: int, lo: int, hi: int, i: real)
    requires lo <= x <= hi && lo < hi && 0.0 <= i < 1.0
    ensures IsByte(StretchByte(x, lo, hi, i))
    ensures StretchByte(x, lo, hi, i) <= ToUint8(255.0 * i)
    ensures x == lo ==> StretchByte(x, lo, hi, i) == 0
  {
    StretchBounds(x, lo, hi, i);
    assert 255.0 * Stretched(x, lo, hi, i) <= 255.0 * i;
  }

  /**
   * Stretched bytes: flat channels give (uint8(255 * intensity), 0, 0) with
   * the given alpha; otherwise the colour is opaque, every channel is a byte
   * no larger than uint8(255 * intensity), and the smallest channel is 0.
   */
  lemma StretchBytesRules(c: Rgb, kind: BodyKind, flatAlpha: int)
    ensures var col, top := StretchBytes(c, kind, flatAlpha), ToUint8(255.0 * Intensity(kind));
      && (top == 38 <==> kind == Static) && (kind != Static ==> top == 191)
      && (Flat(c) ==> col == NRGBA(top, 0, 0, flatAlpha))
      && (!Flat(c) ==> && IsByte(col.r) && IsByte(col.g) && IsByte(col.b) && col.a == 255
                       && col.r <= top && col.g <= top && col.b <= top
                       && (col.r == 0 || col.g == 0 || col.b == 0))
  {
    var i := Intensity(kind);
    if !Flat(c) {
      var max, min := Max3(c), Min3(c);
      StretchByteBounds(c.r, min, max, i);
      StretchByteBounds(c.g, min, max, i);
      StretchByteBounds(c.b, min, max, i);
    }
  }

  /**
   * The corrected ColorForShape: fixed colours (255,255,255,25), (12,12,12,255)
   * and (170,170,170,255) by the same precedence as the float copy; every
   * non-sensor colour is opaque; awake shapes get the stretched hash bytes.
   */
  lemma ColorForShapeRules(s: ShapeView)
    ensures s.sensor ==> ColorForShape(s) == NRGBA(255, 255, 255, 25)
    ensures !s.sensor && s.sleeping ==> ColorForShape(s) == NRGBA(12, 12, 12, 255)
    ensures !s.sensor && !s.sleeping && s.idleTime > s.sleepTimeThreshold ==> ColorForShape(s) == NRGBA(170, 170, 170, 255)
    ensures !s.sensor ==> ColorForShape(s).a == 255
    ensures !s.sensor && !s.sleeping && s.idleTime <= s.sleepTimeThreshold ==>
              ColorForShape(s) == StretchBytes(HashChannels(s.hashId), s.kind, 255)
  {
    StretchBytesRules(HashChannels(s.hashId), s.kind, 255);
  }

  /**
   * On the same channels the 8-bit colour is the float colour scaled by 255
   * and truncated, channel by channel.
   */
  lemma StretchCopiesAgree(c: Rgb, kind: BodyKind)
    ensures var f, n := Stretch(c, kind), StretchBytes(c, kind, 255);
      && 0.0 <= 255.0 * f.r < 256.0 && 0.0 <= 255.0 * f.g < 256.0 && 0.0 <= 255.0 * f.b < 256.0
      && n == NRGBA(ToUint8(255.0 * f.r), ToUint8(255.0 * f.g), ToUint8(255.0 * f.b), 255)
  {
    if !Flat(c) {
      var max, min, i := Max3(c), Min3(c), Intensity(kind);
      StretchBounds(c.r, min, max, i);
      StretchBounds(c.g, min, max, i);
      StretchBounds(c.b, min, max, i);
    }
  }

  /** The two copies agree on awake shapes, and disagree on the sleeping grey (51 against 12 out of 255). */
  lemma ColorCopiesAgree(s: ShapeView)
    ensures var f, n := ShapeColor(s), ColorForShape(s);
      !s.sensor && !s.sleeping && s.idleTime <= s.sleepTimeThreshold ==>
        && 0.0 <= 255.0 * f.r < 256.0 && 0.0 <= 255.0 * f.g < 256.0 && 0.0 <= 255.0 * f.b < 256.0
        && n == NRGBA(ToUint8(255.0 * f.r), ToUint8(255.0 * f.g), ToUint8(255.0 * f.b), 255)
    ensures !s.sensor && s.sleeping ==> ToUint8(255.0 * ShapeColor(s).r) == 51 && ColorForShape(s).r == 12
  {
    StretchCopiesAgree(HashChannels(s.hashId), s.kind);
  }

  /** A hash id whose mixed hash has three equal channels (each 2). */
  const FlatHashId: bv64 := 119015

  lemma FlatHashIdIsFlat()
    ensures Mix(FlatHashId) == 0xd85c77020202
    ensures HashChannels(FlatHashId) == Rgb(2, 2, 2)
  {
  }

  /**
   * As written, an awake dynamic shape whose hash is flat is drawn with alpha
   * 1 out of 255, nearly invisible, while the float copy draws the same shape
   * opaque; the corrected copy is opaque.
   */
  lemma FlatHashAlphaAsWritten()
    ensures var s := ShapeView(false, false, 0.0, 0.5, FlatHashId, Dynamic);
      && ColorForShapeAsWritten(s) == NRGBA(191, 0, 0, 1)
      && ShapeColor(s) == FColor(0.75, 0.0, 0.0, 1.0)
      && ColorForShape(s) == NRGBA(191, 0, 0, 255)
  {
    FlatHashIdIsFlat();
  }
}
