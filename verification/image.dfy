/**
 * Images: a typed, strided rectangle of pixels viewed over raw memory or over
 * a region of a buffer, with the geometry checks made at construction, the
 * re-pointing after the buffer's storage moved, the aliasing test between
 * two images and the descriptor handed to the CPU kernels.
 */
module Images {
  import opened Common
  import opened Errors
  import opened Objects

  /** The element type of a pixel format. */
  datatype DataType = Void | UInt8 | Float16 | Float32

  /** A pixel format: undefined, or a number of channels of one data type. */
  datatype Format = Undefined | Typed(dataType: DataType, channels: nat)

  function DataTypeSize(t: DataType): nat
  {
    match t
    case Void => 0
    case UInt8 => 1
    case Float16 => 2
    case Float32 => 4
  }

  /** getC(): the number of channels of the format. */
  function Channels(f: Format): nat
  {
    if f.Undefined? then 0 else f.channels
  }

  /** getFormatSize: the byte size of one pixel. */
  function FormatSize(f: Format): nat
  {
    if f.Undefined? then 0 else f.channels * DataTypeSize(f.dataType)
  }

  /** The largest supported width or height. */
  const MaxDim: nat := 65536

  /** The validated geometry of an image (ImageDesc). */
  datatype ImageDesc = ImageDesc(format: Format, width: nat, height: nat, wByteStride: nat, hByteStride: nat)

  /** getByteSize: the bytes spanned by the image, one row stride per row. */
  function ByteSize(d: ImageDesc): nat
  {
    d.height * d.hByteStride
  }

  /** What every image descriptor built by NewImageDesc satisfies. */
  predicate ValidDesc(d: ImageDesc)
  {
    && d.width <= MaxDim && d.height <= MaxDim
    && d.width * d.height * Channels(d.format) <= IntMax
    && d.wByteStride >= FormatSize(d.format)
    && d.hByteStride >= d.width * d.wByteStride
  }

  predicate SizeTooLarge(format: Format, width: nat, height: nat)
  {
    width > MaxDim || height > MaxDim || width * height * Channels(format) > IntMax
  }

  /** The pixel byte stride: the pixel size by default, else at least the pixel size. */
  function PixelStride(format: Format, pixelByteStride: nat): (r: Result<nat>)
    ensures r.Ok? <==> pixelByteStride == 0 || pixelByteStride >= FormatSize(format)
    ensures r.Ok? ==> r.value >= FormatSize(format)
    ensures r.Ok? && pixelByteStride != 0 ==> r.value == pixelByteStride
    ensures r.Ok? && pixelByteStride == 0 ==> r.value == FormatSize(format)
    ensures r.Err? ==> r.failure == Invalid("pixel stride smaller than pixel size")
  {
    if pixelByteStride != 0 then
      if pixelByteStride < FormatSize(format) then Err(Invalid("pixel stride smaller than pixel size"))
      else Ok(pixelByteStride)
    else Ok(FormatSize(format))
  }

  /**
   * The row byte stride: width times the pixel stride by default, else at
   * least that. The product is exact here.
   */
  function RowStride(width: nat, wByteStride: nat, rowByteStride: nat): (r: Result<nat>)
    ensures r.Ok? <==> rowByteStride == 0 || rowByteStride >= width * wByteStride
    ensures r.Ok? ==> r.value >= width * wByteStride
    ensures r.Ok? && rowByteStride != 0 ==> r.value == rowByteStride
    ensures r.Ok? && rowByteStride == 0 ==> r.value == width * wByteStride
    ensures r.Err? ==> r.failure == Invalid("row stride smaller than width * pixel stride")
  {
    if rowByteStride != 0 then
      if rowByteStride < width * wByteStride then Err(Invalid("row stride smaller than width * pixel stride"))
      else Ok(rowByteStride)
    else Ok(width * wByteStride)
  }

  /** The same check as compiled: `width * wByteStride` is a size_t product and wraps. */
  function RowStrideAsWritten(width: nat, wByteStride: nat, rowByteStride: nat): Result<nat>
  {
    var minimum := (width * wByteStride) % SizeModulus;
    if rowByteStride != 0 then
      if rowByteStride < minimum then Err(Invalid("row stride smaller than width * pixel stride"))
      else Ok(rowByteStride)
    else Ok(minimum)
  }

  /**
   * A pixel stride of 2^63 on a two-pixel row wraps the minimum row stride to
   * zero, so a row stride of 1 byte is accepted although the row needs 2^64.
   */
  lemma RowStrideCheckWraps()
    ensures RowStrideAsWritten(2, 0x8000_0000_0000_0000, 1) == Ok(1)
    ensures 1 < 2 * 0x8000_0000_0000_0000
    ensures RowStride(2, 0x8000_0000_0000_0000, 1).Err?
  {
  }

  /** ImageDesc::ImageDesc: validates the dimensions and works out both strides. */
  function NewImageDesc(format: Format, width: nat, height: nat, pixelByteStride: nat, rowByteStride: nat): (r: Result<ImageDesc>)
    ensures r.Ok? <==>
      && !SizeTooLarge(format, width, height)
      && PixelStride(format, pixelByteStride).Ok?
      && RowStride(width, PixelStride(format, pixelByteStride).value, rowByteStride).Ok?
    ensures SizeTooLarge(format, width, height) ==> r == Err(Invalid("image size too large"))
    ensures r.Err? ==> r.failure.OidnException? && r.failure.code == InvalidArgument
    ensures r.Ok? ==> ValidDesc(r.value)
    ensures r.Ok? ==> r.value.format == format && r.value.width == width && r.value.height == height
    ensures r.Ok? ==> r.value.wByteStride == PixelStride(format, pixelByteStride).value
    ensures r.Ok? ==> r.value.hByteStride == RowStride(width, r.value.wByteStride, rowByteStride).value
  {
    if SizeTooLarge(format, width, height) then Err(Invalid("image size too large"))
    else match PixelStride(format, pixelByteStride)
      case Err(f) => Err(f)
      case Ok(w) =>
        match RowStride(width, w, rowByteStride)
        case Err(f) => Err(f)
        case Ok(h) => Ok(ImageDesc(format, width, height, w, h))
  }

  /** With both default strides the image is tightly packed: width * height pixels. */
  lemma DefaultStridesArePacked(format: Format, width: nat, height: nat)
    requires !SizeTooLarge(format, width, height)
    ensures NewImageDesc(format, width, height, 0, 0).Ok?
    ensures ByteSize(NewImageDesc(format, width, height, 0, 0).value) == width * height * FormatSize(format)
  {
    var d := NewImageDesc(format, width, height, 0, 0).value;
    assert d.hByteStride == width * FormatSize(format);
    assert height * (width * FormatSize(format)) == width * height * FormatSize(format) by {
      MulReorder(height, width, FormatSize(format));
    }
  }

  lemma MulReorder(a: nat, b: nat, c: nat)
    ensures a * (b * c) == b * a * c
  {
  }

  /** `byteOffset + getByteSize() <= buffer->getByteSize()`, in exact arithmetic. */
  predicate RegionFits(byteOffset: nat, byteSize: nat, capacity: nat)
  {
    byteOffset + byteSize <= capacity
  }

  /**
   * The region a buffer-backed image views: its data pointer, or None when the
   * region does not fit in the buffer.
   */
  function BufferView(d: ImageDesc, data: nat, capacity: nat, byteOffset: nat): (p: Option<nat>)
    ensures p.Some? <==> RegionFits(byteOffset, ByteSize(d), capacity)
    ensures p.Some? ==> p.value == data + byteOffset
    ensures p.Some? ==> data <= p.value && p.value + ByteSize(d) <= data + capacity
  {
    if byteOffset + ByteSize(d) > capacity then None else Some(data + byteOffset)
  }

  /**
   * The same computation as compiled: the sum in the check and the pointer
   * arithmetic are both size_t and wrap.
   */
  function BufferViewAsWritten(d: ImageDesc, data: nat, capacity: nat, byteOffset: nat): Option<nat>
  {
    if (byteOffset + ByteSize(d)) % SizeModulus > capacity then None
    else Some((data + byteOffset) % SizeModulus)
  }

  /**
   * A 16-byte image at offset 2^64 - 8 into a 100-byte buffer at address 1000
   * passes the compiled check and starts 8 bytes before the buffer.
   */
  lemma RegionCheckWraps()
    ensures var d := ImageDesc(Typed(UInt8, 1), 16, 1, 1, 16);
      && ByteSize(d) == 16
      && BufferViewAsWritten(d, 1000, 100, SizeModulus - 8) == Some(992)
      && BufferView(d, 1000, 100, SizeModulus - 8).None?
  {
  }

  /**
   * The region a pointer-backed image views: a null pointer is accepted only
   * for an empty region.
   */
  function PointerView(ptr: nat, d: ImageDesc, byteOffset: nat): (p: Option<nat>)
    ensures p.None? <==> ptr == 0 && byteOffset + ByteSize(d) > 0
    ensures p.Some? ==> p.value == ptr + byteOffset
    ensures p.Some? && ptr == 0 ==> p.value == 0 && ByteSize(d) == 0
  {
    if ptr == 0 && byteOffset + ByteSize(d) > 0 then None else Some(ptr + byteOffset)
  }

  const RegionOutOfRange := "buffer region out of range"

  /** Two half-open byte intervals [begin1, end1) and [begin2, end2) intersect. */
  predicate IntervalsIntersect(begin1: nat, end1: nat, begin2: nat, end2: nat)
  {
    begin1 < end2 && begin2 < end1
  }

  /** The element type tags of the CPU kernels' image accessor. */
  datatype TypeTag = TagFloat32 | TagFloat16 | TagUInt8

  function TagSize(t: TypeTag): nat
  {
    match t
    case TagFloat32 => 4
    case TagFloat16 => 2
    case TagUInt8 => 1
  }

  /** ispc::ImageAccessor */
  datatype Accessor = Accessor(ptr: nat, hByteStride: nat, wByteStride: nat, dataType: TypeTag, W: int, H: int)

  /**
   * An image: a descriptor, the buffer it views (null for raw memory), the
   * byte offset into that buffer, and its data pointer (0 is null).
   */
  class Image {
    const desc: ImageDesc
    const buffer: Buffer?
    const byteOffset: nat
    var ptr: nat

    constructor (desc: ImageDesc, buffer: Buffer?, byteOffset: nat, ptr: nat)
      ensures this.desc == desc && this.buffer == buffer
      ensures this.byteOffset == byteOffset && this.ptr == ptr
    {
      this.desc := desc;
      this.buffer := buffer;
      this.byteOffset := byteOffset;
      this.ptr := ptr;
    }

    function Begin(): nat
      reads this
    {
      ptr
    }

    function End(): (e: nat)
      reads this
      ensures Begin() <= e
    {
      ptr + ByteSize(desc)
    }

    /** The byte at `addr` lies in the image's half-open interval. */
    predicate Covers(addr: nat)
      reads this
    {
      Begin() <= addr < End()
    }

    /** What updatePtr would set the pointer to, or None when the region no longer fits. */
    function Rebased(): Option<nat>
      reads this, buffer
    {
      if buffer == null then Some(ptr)
      else BufferView(desc, buffer.data, buffer.byteSize, byteOffset)
    }

    /**
     * Image::updatePtr: re-derives the pointer from the buffer's current data
     * pointer; a range error leaves it unchanged. After a successful update
     * the pointer is a fixed point, so updating again changes nothing.
     */
    method UpdatePtr() returns (r: Result<()>)
      modifies this
      ensures r.Ok? <==> old(Rebased()).Some?
      ensures r.Ok? ==> ptr == old(Rebased()).value && Rebased() == Some(ptr)
      ensures r.Err? ==> ptr == old(ptr) && r.failure == StdException(RangeError, RegionOutOfRange)
      ensures buffer == null ==> ptr == old(ptr)
      ensures buffer != null && r.Ok? ==> buffer.data <= ptr && ptr + ByteSize(desc) <= buffer.data + buffer.byteSize
    {
      if buffer != null {
        var p := BufferView(desc, buffer.data, buffer.byteSize, byteOffset);
        if p.None? {
          return Err(StdException(RangeError, RegionOutOfRange));
        }
        ptr := p.value;
      }
      r := Ok(());
    }

    /** Image::overlaps */
    predicate Overlaps(other: Image)
      reads this, other
    {
      if ptr == 0 || other.ptr == 0 then false
      else if buffer != other.buffer then false
      else IntervalsIntersect(Begin(), End(), other.Begin(), other.End())
    }

    /** The conversion to ispc::ImageAccessor. */
    function ToAccessor(): (r: Result<Accessor>)
      reads this
      ensures r.Err? <==> desc.format.Typed? && desc.format.dataType.Void?
      ensures r.Err? ==> r.failure == StdException(LogicError, "unsupported data type")
      ensures r.Ok? ==> r.value.ptr == ptr
      ensures r.Ok? ==> r.value.hByteStride == desc.hByteStride && r.value.wByteStride == desc.wByteStride
      ensures r.Ok? ==> r.value.W == ToInt32(desc.width) && r.value.H == ToInt32(desc.height)
      ensures r.Ok? && desc.format.Undefined? ==> r.value.dataType == TagFloat32
      ensures r.Ok? && desc.format.Typed? ==> TagSize(r.value.dataType) == DataTypeSize(desc.format.dataType)
    {
      var tag: Result<TypeTag> :=
        match desc.format
        case Undefined => Ok(TagFloat32)
        case Typed(t, _) =>
          match t
          case Float32 => Ok(TagFloat32)
          case Float16 => Ok(TagFloat16)
          case UInt8 => Ok(TagUInt8)
          case Void => Err(StdException(LogicError, "unsupported data type"));
      match tag
      case Err(f) => Err(f)
      case Ok(t) => Ok(Accessor(ptr, desc.hByteStride, desc.wByteStride, t, ToInt32(desc.width), ToInt32(desc.height)))
    }
  }

  /** The accessor of a valid image carries its width and height unchanged. */
  lemma AccessorKeepsDimensions(img: Image)
    requires ValidDesc(img.desc) && img.ToAccessor().Ok?
    ensures img.ToAccessor().value.W == img.desc.width
    ensures img.ToAccessor().value.H == img.desc.height
  {
  }

  /** Overlap does not depend on the order of the two images. */
  lemma OverlapsSymmetric(a: Image, b: Image)
    ensures a.Overlaps(b) == b.Overlaps(a)
  {
  }

  /** Images without a pointer or over different buffers never overlap. */
  lemma OverlapsNeedsSameBuffer(a: Image, b: Image)
    ensures a.Overlaps(b) ==> a.ptr != 0 && b.ptr != 0 && a.buffer == b.buffer
  {
  }

  /**
   * Two images over caller memory both have no buffer, so the buffer test
   * lets them through: with non-null pointers they overlap exactly when their
   * byte intervals intersect.
   */
  lemma OverlapsWithoutBuffer(a: Image, b: Image)
    requires a.buffer == null && b.buffer == null && a.ptr != 0 && b.ptr != 0
    ensures a.Overlaps(b) <==> IntervalsIntersect(a.Begin(), a.End(), b.Begin(), b.End())
    ensures a.Begin() < b.Begin() < a.End() ==> a.Overlaps(b)
  {
  }

  /** Intervals that only touch (one ends where the other begins) do not overlap. */
  lemma AdjacentImagesDoNotOverlap(a: Image, b: Image)
    requires a.End() <= b.Begin()
    ensures !a.Overlaps(b) && !b.Overlaps(a)
  {
  }

  /**
   * For non-empty images on one buffer, overlap means sharing a byte; a
   * shared byte always means overlap.
   */
  lemma OverlapsIffSharedByte(a: Image, b: Image)
    requires a.ptr != 0 && b.ptr != 0 && a.buffer == b.buffer
    ensures (exists x :: a.Covers(x) && b.Covers(x)) ==> a.Overlaps(b)
    ensures a.Overlaps(b) && ByteSize(a.desc) > 0 && ByteSize(b.desc) > 0 ==>
      exists x :: a.Covers(x) && b.Covers(x)
  {
    if a.Overlaps(b) && ByteSize(a.desc) > 0 && ByteSize(b.desc) > 0 {
      var x := if a.Begin() < b.Begin() then b.Begin() else a.Begin();
      assert a.Covers(x) && b.Covers(x);
    }
  }

  /** [0,100) and [50,150) intersect; [0,100) and [100,200) only touch. */
  lemma IntervalExamples()
    ensures IntervalsIntersect(0, 100, 50, 150)
    ensures !IntervalsIntersect(0, 100, 100, 200)
  {
  }

  /** Image::Image(): an undefined, empty image with a null pointer. */
  method NewEmptyImage() returns (img: Image)
    ensures fresh(img)
    ensures img.desc == ImageDesc(Undefined, 0, 0, 0, 0) && ValidDesc(img.desc)
    ensures img.buffer == null && img.byteOffset == 0 && img.ptr == 0
  {
    var d := NewImageDesc(Undefined, 0, 0, 0, 0);
    img := new Image(d.value, null, 0, 0);
  }

  /**
   * Image over caller-owned memory: the byte offset is folded into the
   * pointer, and the image records no buffer and no offset.
   */
  method NewPointerImage(ptr: nat, format: Format, width: nat, height: nat,
                         byteOffset: nat, pixelByteStride: nat, rowByteStride: nat)
    returns (r: Result<Image>)
    ensures var d := NewImageDesc(format, width, height, pixelByteStride, rowByteStride);
      && (d.Err? ==> r == Err(d.failure))
      && (d.Ok? && PointerView(ptr, d.value, byteOffset).None? ==> r == Err(Invalid(RegionOutOfRange)))
      && (d.Ok? && PointerView(ptr, d.value, byteOffset).Some? ==>
            && r.Ok? && fresh(r.value)
            && r.value.desc == d.value && r.value.buffer == null && r.value.byteOffset == 0
            && r.value.ptr == ptr + byteOffset)
  {
    var d := NewImageDesc(format, width, height, pixelByteStride, rowByteStride);
    if d.Err? {
      return Err(d.failure);
    }
    var p := PointerView(ptr, d.value, byteOffset);
    if p.None? {
      return Err(Invalid(RegionOutOfRange));
    }
    var img := new Image(d.value, null, 0, p.value);
    r := Ok(img);
  }

  /**
   * Image over a region of a buffer, with a descriptor made earlier. The
   * image holds a reference to its buffer (the Memory base keeps a
   * Ref<Buffer>); when the region check throws, that reference is dropped
   * again, so only a successful construction changes the count.
   */
  method NewBufferImage(buffer: Buffer, desc: ImageDesc, byteOffset: nat) returns (r: Result<Image>)
    requires buffer.rc.Live()
    modifies buffer.rc
    ensures buffer.rc.count == old(buffer.rc.count) + (if r.Ok? then 1 else 0)
    ensures r.Err? <==> !RegionFits(byteOffset, ByteSize(desc), buffer.byteSize)
    ensures r.Err? ==> r.failure == Invalid(RegionOutOfRange)
    ensures r.Ok? ==> fresh(r.value)
    ensures r.Ok? ==> r.value.desc == desc && r.value.buffer == buffer && r.value.byteOffset == byteOffset
    ensures r.Ok? ==> r.value.ptr == buffer.data + byteOffset
    ensures r.Ok? ==> r.value.Rebased() == Some(r.value.ptr)
  {
    var p := BufferView(desc, buffer.data, buffer.byteSize, byteOffset);
    if p.None? {
      return Err(Invalid(RegionOutOfRange));
    }
    buffer.rc.IncRef();
    var img := new Image(desc, buffer, byteOffset, p.value);
    r := Ok(img);
  }

  /**
   * Image over a region of a buffer, validating the geometry first; as with
   * NewBufferImage, only a successful construction adds a reference to the buffer.
   */
  method NewBufferImageWithFormat(buffer: Buffer, format: Format, width: nat, height: nat,
                                  byteOffset: nat, pixelByteStride: nat, rowByteStride: nat)
    returns (r: Result<Image>)
    requires buffer.rc.Live()
    modifies buffer.rc
    ensures buffer.rc.count == old(buffer.rc.count) + (if r.Ok? then 1 else 0)
    ensures var d := NewImageDesc(format, width, height, pixelByteStride, rowByteStride);
      && (d.Err? ==> r == Err(d.failure))
      && (d.Ok? && !RegionFits(byteOffset, ByteSize(d.value), buffer.byteSize) ==> r == Err(Invalid(RegionOutOfRange)))
      && (d.Ok? && RegionFits(byteOffset, ByteSize(d.value), buffer.byteSize) ==>
            && r.Ok? && fresh(r.value)
            && r.value.desc == d.value && r.value.buffer == buffer && r.value.byteOffset == byteOffset
            && r.value.ptr == buffer.data + byteOffset)
  {
    var d := NewImageDesc(format, width, height, pixelByteStride, rowByteStride);
    if d.Err? {
      return Err(d.failure);
    }
    r := NewBufferImage(buffer, d.value, byteOffset);
  }

  /**
   * Image with its own device-storage buffer of width * height pixels. The
   * engine allocates before the geometry is validated (Memory is the first
   * base class); `engineFault` is what the allocation throws, if anything.
   */
  method NewAllocatedImage(device: Device, format: Format, width: nat, height: nat,
                           engineFault: Option<Failure>, addr: nat)
    returns (r: Result<Image>)
    ensures engineFault.Some? ==> r == Err(engineFault.value)
    ensures engineFault.None? && SizeTooLarge(format, width, height) ==> r == Err(Invalid("image size too large"))
    ensures engineFault.None? && !SizeTooLarge(format, width, height) ==>
      && r.Ok? && fresh(r.value) && r.value.buffer != null && fresh(r.value.buffer)
      && r.value.desc == NewImageDesc(format, width, height, 0, 0).value
      && r.value.buffer.device == device && r.value.buffer.origin == Allocated(DeviceStorage)
      && r.value.buffer.data == addr && r.value.buffer.byteSize == width * height * FormatSize(format)
      && r.value.buffer.rc.count == 1
      && r.value.byteOffset == 0 && r.value.ptr == addr
      && RegionFits(0, ByteSize(r.value.desc), r.value.buffer.byteSize)
  {
    if engineFault.Some? {
      return Err(engineFault.value);
    }
    var buffer := new Buffer(device, Allocated(DeviceStorage), addr, width * height * FormatSize(format));
    var d := NewImageDesc(format, width, height, 0, 0);
    if d.Err? {
      return Err(d.failure);
    }
    DefaultStridesArePacked(format, width, height);
    var img := new Image(d.value, buffer, 0, buffer.data);
    r := Ok(img);
  }
}
