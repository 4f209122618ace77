/** The IDX decoders of src/mnist.rs: label files become one-hot vectors of
    length 10, image files become vectors of 28 x 28 pixels scaled to [0, 1].
    Reading the file is not modelled: each decoder takes its contents. */
module Mnist {
  import opened Outcome
  import Dnn

  type byte = b: nat | b < 256

  const LabelOffset: nat := 8
  const DataOffset: nat := 16
  const ImageWidth: nat := 28
  const ImageHeight: nat := 28
  const ImageSize: nat := ImageHeight * ImageWidth
  const LabelCount: nat := 10

  /** Why a decoder panics instead of returning. */
  datatype DecodeError =
    | Truncated        // `contents.len() - offset` underflows
    | LabelOutOfRange  // a label byte indexes past the 10 entries of its vector
    | PastEnd          // a pixel read indexes past the end of the contents

  // ---------------------------------------------------------------------------
  // Labels

  /** The vector of length 10 that is 1 at `tag` and 0 elsewhere. */
  function OneHot(tag: nat): (r: seq<real>)
    requires tag < LabelCount
    ensures |r| == LabelCount && forall k :: 0 <= k < LabelCount ==> r[k] == if k == tag then 1.0 else 0.0
  {
    Dnn.Zeros(LabelCount)[tag := 1.0]
  }

  /** Every byte after the header is a label below 10. */
  predicate LabelsInRange(contents: seq<byte>)
    requires LabelOffset <= |contents|
  {
    forall i :: LabelOffset <= i < |contents| ==> contents[i] < LabelCount
  }

  /** What read_label (mnist.rs:40-53) makes of `contents`: one one-hot vector
      per byte after the 8-byte header, or the panic that stops it. */
  function Labels(contents: seq<byte>): (r: Result<seq<seq<real>>, DecodeError>)
    ensures r.Ok? <==> LabelOffset <= |contents| && LabelsInRange(contents)
    ensures r == Err(Truncated) <==> |contents| < LabelOffset
    ensures r.Ok? ==> |r.value| == |contents| - LabelOffset &&
                      forall i :: 0 <= i < |r.value| ==> r.value[i] == OneHot(contents[i + LabelOffset])
  {
    if |contents| < LabelOffset then Err(Truncated)
    else if !LabelsInRange(contents) then Err(LabelOutOfRange)
    else Ok(seq(|contents| - LabelOffset, i requires 0 <= i < |contents| - LabelOffset =>
                  OneHot(contents[i + LabelOffset])))
  }

  /** read_label's loop (mnist.rs:44-52): a zero vector per label byte with its
      entry at the label set to 1; a label of 10 or more panics. */
  method ReadLabel(contents: seq<byte>) returns (r: Result<seq<seq<real>>, DecodeError>)
    ensures r == Labels(contents)
  {
    if |contents| < LabelOffset {
      return Err(Truncated);
    }
    var ret: seq<seq<real>> := [];
    for image := 0 to |contents| - LabelOffset
      invariant |ret| == image
      invariant forall j :: LabelOffset <= j < image + LabelOffset ==> contents[j] < LabelCount
      invariant forall i :: 0 <= i < image ==> ret[i] == OneHot(contents[i + LabelOffset])
    {
      var tag := contents[image + LabelOffset];
      if tag >= LabelCount {
        return Err(LabelOutOfRange);
      }
      var v := Dnn.Zeros(LabelCount);
      v := v[tag := 1.0];
      ret := ret + [v];
    }
    assert ret == Labels(contents).value;
    return Ok(ret);
  }

  /** A label file: any 8-byte header, then one byte per label. */
  function LabelFile(header: seq<byte>, labels: seq<byte>): seq<byte> {
    header + labels
  }

  /** Decoding a label file gives back one one-hot vector per label, and the
      position of its 1 is that label. */
  lemma LabelRoundTrip(header: seq<byte>, labels: seq<byte>)
    requires |header| == LabelOffset && forall i :: 0 <= i < |labels| ==> labels[i] < LabelCount
    ensures var r := Labels(LabelFile(header, labels));
            r.Ok? && |r.value| == |labels| &&
            forall i, k :: 0 <= i < |labels| && 0 <= k < LabelCount ==> (r.value[i][k] == 1.0 <==> k == labels[i])
  {
    var c := LabelFile(header, labels);
    assert forall j :: LabelOffset <= j < |c| ==> c[j] == labels[j - LabelOffset];
    var r := Labels(c);
    forall i | 0 <= i < |labels|
      ensures r.value[i] == OneHot(labels[i])
    {
      assert c[i + LabelOffset] == labels[i];
    }
  }

  // ---------------------------------------------------------------------------
  // Images

  /** The position of pixel (x, y) in an image vector (mnist.rs:32). */
  function PixelIndex(x: nat, y: nat): (r: nat)
    requires x < ImageWidth && y < ImageHeight
    ensures r < ImageSize
  {
    x * ImageWidth + y
  }

  /** Every position of an image vector is the position of exactly one pixel. */
  lemma PixelIndexBijective(p: nat)
    requires p < ImageSize
    ensures p / ImageWidth < ImageWidth && p % ImageWidth < ImageHeight && PixelIndex(p / ImageWidth, p % ImageWidth) == p
    ensures forall x, y :: 0 <= x < ImageWidth && 0 <= y < ImageHeight && PixelIndex(x, y) == p ==>
              x == p / ImageWidth && y == p % ImageWidth
  {
    forall x, y | 0 <= x < ImageWidth && 0 <= y < ImageHeight && PixelIndex(x, y) == p
      ensures x == p / ImageWidth && y == p % ImageWidth
    {
      PixelDivMod(x, y);
    }
  }

  lemma PixelDivMod(x: nat, y: nat)
    requires y < ImageHeight
    ensures (x * ImageWidth + y) / ImageWidth == x && (x * ImageWidth + y) % ImageWidth == y
  {
  }

  /** A byte scaled to [0, 1], as `byte as f32 / 255` (mnist.rs:32). */
  function Scale(b: byte): (r: real)
    ensures 0.0 <= r <= 1.0 && r * 255.0 == b as real
  {
    b as real / 255.0
  }

  /** Image `image` of `contents`: pixel `p` is the byte at
      `DataOffset + image * ImageSize + p`, scaled. */
  function Image(contents: seq<byte>, image: nat): (r: seq<real>)
    requires DataOffset + (image + 1) * ImageSize <= |contents|
    ensures |r| == ImageSize
  {
    seq(ImageSize, p requires 0 <= p < ImageSize => Scale(contents[DataOffset + image * ImageSize + p]))
  }

  /** How many images a decoder that subtracts `countOffset` from the length
      before dividing by the image size will read. */
  function ImageCount(contents: seq<byte>, countOffset: nat): nat
    requires countOffset <= |contents|
  {
    (|contents| - countOffset) / ImageSize
  }

  /** What a read_data loop (mnist.rs:21-38) whose image count subtracts
      `countOffset` makes of `contents`: `ImageCount` images read from offset
      16, or the panic that stops it. */
  function Decode(contents: seq<byte>, countOffset: nat): (r: Result<seq<seq<real>>, DecodeError>)
    ensures r == Err(Truncated) <==> |contents| < countOffset
    ensures r.Ok? <==> countOffset <= |contents| &&
                       var n := ImageCount(contents, countOffset); n == 0 || DataOffset + n * ImageSize <= |contents|
    ensures r.Ok? ==> |r.value| == ImageCount(contents, countOffset)
  {
    if |contents| < countOffset then Err(Truncated)
    else
      var n := ImageCount(contents, countOffset);
      if n > 0 && DataOffset + n * ImageSize > |contents| then Err(PastEnd)
      else Ok(seq(n, i requires 0 <= i < n => Image(contents, i)))
  }

  /** read_data as written: the count subtracts the label header's 8 bytes. */
  function ImagesAsWritten(contents: seq<byte>): (r: Result<seq<seq<real>>, DecodeError>)
    ensures r.Ok? <==> LabelOffset <= |contents| &&
                       var n := (|contents| - LabelOffset) / ImageSize; n == 0 || DataOffset + n * ImageSize <= |contents|
  {
    Decode(contents, LabelOffset)
  }

  /** read_data as evidently intended: the count subtracts the image header's
      16 bytes. */
  function Images(contents: seq<byte>): (r: Result<seq<seq<real>>, DecodeError>)
    ensures r.Ok? <==> DataOffset <= |contents|
    ensures r.Ok? ==> |r.value| == (|contents| - DataOffset) / ImageSize
  {
    var r := Decode(contents, DataOffset);
    assert DataOffset <= |contents| ==> DataOffset + ImageCount(contents, DataOffset) * ImageSize <= |contents| by {
      if DataOffset <= |contents| {
        CountFits(|contents| - DataOffset);
      }
    }
    r
  }

  lemma CountFits(m: nat)
    ensures (m / ImageSize) * ImageSize <= m
  {
  }

  /** Each image has 784 pixels; pixel `p` of image `i` is the scaled byte at
      `16 + i * 784 + p`, and every pixel lies in [0, 1]. */
  lemma ImagePixels(contents: seq<byte>, countOffset: nat, i: nat, p: nat)
    requires Decode(contents, countOffset).Ok? && i < |Decode(contents, countOffset).value| && p < ImageSize
    ensures var img := Decode(contents, countOffset).value[i];
            |img| == ImageSize && DataOffset + i * ImageSize + p < |contents| &&
            img[p] == Scale(contents[DataOffset + i * ImageSize + p]) && 0.0 <= img[p] <= 1.0
  {
    var n := ImageCount(contents, countOffset);
    assert DataOffset + (i + 1) * ImageSize <= DataOffset + n * ImageSize;
  }

  /** One pass of read_data's pixel loops (mnist.rs:30-34) for image `image`:
      a zero vector whose pixel `x * 28 + y` receives the scaled byte at
      `16 + image * 784 + x * 28 + y`, or the panic of a read past the end. */
  method ReadImage(contents: seq<byte>, image: nat) returns (r: Result<seq<real>, DecodeError>)
    ensures r.Ok? <==> DataOffset + (image + 1) * ImageSize <= |contents|
    ensures r.Ok? ==> r.value == Image(contents, image)
    ensures r.Err? ==> r.error == PastEnd
  {
    var base := DataOffset + image * ImageSize;
    var v := Dnn.Zeros(ImageSize);
    for x := 0 to ImageWidth
      invariant |v| == ImageSize
      invariant x > 0 ==> base + x * ImageWidth <= |contents|
      invariant forall p :: 0 <= p < ImageSize ==> v[p] == if p < x * ImageWidth then Scale(contents[base + p]) else 0.0
    {
      for y := 0 to ImageHeight
        invariant |v| == ImageSize
        invariant x > 0 || y > 0 ==> base + x * ImageWidth + y <= |contents|
        invariant forall p :: 0 <= p < ImageSize ==>
                    v[p] == if p < x * ImageWidth + y then Scale(contents[base + p]) else 0.0
      {
        var at := base + PixelIndex(x, y);
        if at >= |contents| {
          return Err(PastEnd);
        }
        v := v[PixelIndex(x, y) := Scale(contents[at])];
      }
    }
    return Ok(v);
  }

  /** read_data (mnist.rs:21-38) with the image count taken after subtracting
      `countOffset`; the source passes `LabelOffset` (mnist.rs:27). */
  method ReadData(contents: seq<byte>, countOffset: nat) returns (r: Result<seq<seq<real>>, DecodeError>)
    ensures r == Decode(contents, countOffset)
  {
    if |contents| < countOffset {
      return Err(Truncated);
    }
    var n := (|contents| - countOffset) / ImageSize;
    var ret: seq<seq<real>> := [];
    for image := 0 to n
      invariant image > 0 ==> DataOffset + image * ImageSize <= |contents|
      invariant |ret| == image && forall i :: 0 <= i < image ==> ret[i] == Image(contents, i)
    {
      var img := ReadImage(contents, image);
      if img.Err? {
        assert (image + 1) * ImageSize <= n * ImageSize;
        return Err(img.error);
      }
      ret := ret + [img.value];
    }
    assert ret == Decode(contents, countOffset).value;
    return Ok(ret);
  }

  /** An image file: any 16-byte header, then 784 bytes per image. */
  function ImageFile(header: seq<byte>, pixels: seq<byte>): seq<byte> {
    header + pixels
  }

  /** On a well-formed file, 16 header bytes and N whole images, the code as
      written and the intended decoder agree, and image `i` holds the scaled
      bytes `pixels[i * 784 ..]`. */
  lemma DecodersAgree(header: seq<byte>, pixels: seq<byte>, count: nat)
    requires |header| == DataOffset && |pixels| == count * ImageSize
    ensures var c := ImageFile(header, pixels);
            ImagesAsWritten(c) == Images(c) && Images(c).Ok? && |Images(c).value| == count &&
            forall i, p :: 0 <= i < count && 0 <= p < ImageSize ==>
              Images(c).value[i][p] == Scale(pixels[i * ImageSize + p])
  {
    var c := ImageFile(header, pixels);
    assert (|c| - LabelOffset) / ImageSize == count by {
      DivExact(count, LabelOffset);
    }
    assert (|c| - DataOffset) / ImageSize == count by {
      DivExact(count, 0);
    }
    forall i, p | 0 <= i < count && 0 <= p < ImageSize
      ensures Images(c).value[i][p] == Scale(pixels[i * ImageSize + p])
    {
      ImagePixels(c, DataOffset, i, p);
      assert c[DataOffset + i * ImageSize + p] == pixels[i * ImageSize + p];
    }
  }

  lemma DivExact(count: nat, extra: nat)
    requires extra < ImageSize
    ensures (count * ImageSize + extra) / ImageSize == count
  {
  }

  /** The code as written panics on a file of 792 bytes: it counts one image
      but that image's reads run to byte 799. The intended decoder returns no
      image. */
  lemma AsWrittenPanics()
    ensures var c := seq(792, _ => 0 as byte);
            ImagesAsWritten(c) == Err(PastEnd) && Images(c) == Ok([])
  {
    var c := seq(792, _ => 0 as byte);
    assert (|c| - LabelOffset) / ImageSize == 1;
    assert (|c| - DataOffset) / ImageSize == 0;
  }
}
