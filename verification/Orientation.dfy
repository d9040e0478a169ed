/** EXIF orientation (image_processor/worker.py: _rotate_image) against the Orientation
    field, tag 274, in section 8 of TIFF 6.0, and the refill of the clean image. */
module Orientation {

  /** Rows from the top, each from the left. */
  datatype Image<+P> = Image(width: nat, height: nat, rows: seq<seq<P>>)

  predicate Sized<P>(img: Image<P>) {
    |img.rows| == img.height && forall y :: 0 <= y < img.height ==> |img.rows[y]| == img.width
  }

  /***** Pillow's operations *****/

  function Flip<P>(img: Image<P>): Image<P>
    requires Sized(img)
  {
    Image(img.width, img.height, seq(img.height, y requires 0 <= y < img.height =>
      seq(img.width, x requires 0 <= x < img.width => img.rows[y][img.width - 1 - x])))
  }

  function HalfTurn<P>(img: Image<P>): Image<P>
    requires Sized(img)
  {
    Image(img.width, img.height, seq(img.height, y requires 0 <= y < img.height =>
      seq(img.width, x requires 0 <= x < img.width => img.rows[img.height - 1 - y][img.width - 1 - x])))
  }

  /** `rotate(-90, expand=True)`: clockwise. */
  function TurnRight<P>(img: Image<P>): Image<P>
    requires Sized(img)
  {
    Image(img.height, img.width, seq(img.width, y requires 0 <= y < img.width =>
      seq(img.height, x requires 0 <= x < img.height => img.rows[img.height - 1 - x][y])))
  }

  /** `rotate(90, expand=True)`: counterclockwise. */
  function TurnLeft<P>(img: Image<P>): Image<P>
    requires Sized(img)
  {
    Image(img.height, img.width, seq(img.width, y requires 0 <= y < img.width =>
      seq(img.height, x requires 0 <= x < img.height => img.rows[x][img.width - 1 - y])))
  }

  /** _rotate_image once the tag is read. */
  function Upright<P>(img: Image<P>, orientation: int): Image<P>
    requires Sized(img)
  {
    if orientation == 2 then Flip(img)
    else if orientation == 3 then HalfTurn(img)
    else if orientation == 4 then Flip(HalfTurn(img))
    else if orientation == 5 then Flip(TurnRight(img))
    else if orientation == 6 then TurnRight(img)
    else if orientation == 7 then Flip(TurnLeft(img))
    else if orientation == 8 then TurnLeft(img)
    else img
  }

  const ORIENTATION_TAG := 274

  datatype Exif = NoExif | Exif(zeroth: map<int, int>)

  function RotateImage<P>(img: Image<P>, exif: Exif): Image<P>
    requires Sized(img)
  {
    if exif.Exif? && ORIENTATION_TAG in exif.zeroth then Upright(img, exif.zeroth[ORIENTATION_TAG]) else img
  }

  /***** Section 8 of TIFF 6.0 *****/

  datatype Side = Top | Right | Bottom | Left

  /** The visual side of the image that its 0th row shows, and its 0th column. */
  function RowSide(orientation: int): Side {
    if orientation in {3, 4} then Bottom else if orientation in {5, 8} then Left else if orientation in {6, 7} then Right else Top
  }

  function ColumnSide(orientation: int): Side {
    if orientation in {2, 3} then Right else if orientation in {5, 6} then Top else if orientation in {7, 8} then Bottom else Left
  }

  predicate Sideways(orientation: int) { RowSide(orientation).Left? || RowSide(orientation).Right? }

  /** The distance from the top or the left of what lies `k` from `side`, over `length`. */
  function From(side: Side, k: int, length: int): int {
    if side.Top? || side.Left? then k else length - 1 - k
  }

  /** Where row `r`, column `c` of the stored image appears: from the left, from the top. */
  function VisualX(orientation: int, r: int, c: int, width: nat): int {
    if Sideways(orientation) then From(RowSide(orientation), r, width) else From(ColumnSide(orientation), c, width)
  }

  function VisualY(orientation: int, r: int, c: int, height: nat): int {
    if Sideways(orientation) then From(ColumnSide(orientation), c, height) else From(RowSide(orientation), r, height)
  }

  /** `stored` under this orientation is the picture `seen`. */
  predicate Depicts<P(==)>(stored: Image<P>, orientation: int, seen: Image<P>)
    requires Sized(stored) && Sized(seen)
  {
    && (if Sideways(orientation) then stored.width == seen.height && stored.height == seen.width
        else stored.width == seen.width && stored.height == seen.height)
    && forall r, c :: 0 <= r < stored.height && 0 <= c < stored.width ==>
         stored.rows[r][c] == seen.rows[VisualY(orientation, r, c, seen.height)][VisualX(orientation, r, c, seen.width)]
  }

  lemma OperationsKeepSize<P>(img: Image<P>)
    requires Sized(img)
    ensures Sized(Flip(img)) && Sized(HalfTurn(img)) && Sized(TurnRight(img)) && Sized(TurnLeft(img))
  {
  }

  lemma FlippedIsDepicted<P>(stored: Image<P>, orientation: int)
    requires Sized(stored) && 1 <= orientation <= 4
    ensures Sized(Upright(stored, orientation)) && Depicts(stored, orientation, Upright(stored, orientation))
  {
    OperationsKeepSize(stored);
    OperationsKeepSize(HalfTurn(stored));
  }

  lemma TurnedIsDepicted<P>(stored: Image<P>, orientation: int)
    requires Sized(stored) && 5 <= orientation <= 8
    ensures Sized(Upright(stored, orientation)) && Depicts(stored, orientation, Upright(stored, orientation))
  {
    OperationsKeepSize(stored);
    OperationsKeepSize(TurnRight(stored));
    OperationsKeepSize(TurnLeft(stored));
  }

  /** What _rotate_image makes of a stored image is the picture it depicts. */
  lemma UprightIsDepicted<P>(stored: Image<P>, orientation: int)
    requires Sized(stored) && 1 <= orientation <= 8
    ensures Sized(Upright(stored, orientation)) && Depicts(stored, orientation, Upright(stored, orientation))
  {
    hide Depicts, Upright;
    if orientation <= 4 { FlippedIsDepicted(stored, orientation); } else { TurnedIsDepicted(stored, orientation); }
  }

  /** A stored image depicts one picture only. */
  lemma DepictsOne<P>(stored: Image<P>, orientation: int, seen: Image<P>, seen': Image<P>)
    requires Sized(stored) && Sized(seen) && Sized(seen') && 1 <= orientation <= 8
    requires Depicts(stored, orientation, seen) && Depicts(stored, orientation, seen')
    ensures seen == seen'
  {
    var w, h := seen.width, seen.height;
    forall y | 0 <= y < h ensures seen.rows[y] == seen'.rows[y] {
      forall x | 0 <= x < w ensures seen.rows[y][x] == seen'.rows[y][x] {
        var r := if Sideways(orientation) then From(RowSide(orientation), x, w) else From(RowSide(orientation), y, h);
        var c := if Sideways(orientation) then From(ColumnSide(orientation), y, h) else From(ColumnSide(orientation), x, w);
        assert VisualX(orientation, r, c, w) == x && VisualY(orientation, r, c, h) == y;
        assert stored.rows[r][c] == seen.rows[y][x];
      }
    }
  }

  /** So for every image, whatever else its EXIF data hold, a picture comes out of _rotate_image
      if and only if the stored image depicts it; without the tag, or with a value the standard
      does not know, the image stays as it is. */
  lemma RotationInverts<P>(stored: Image<P>, exif: Exif, seen: Image<P>)
    requires Sized(stored) && Sized(seen)
    ensures exif.Exif? && 274 in exif.zeroth && 1 <= exif.zeroth[274] <= 8 ==>
              && (RotateImage(stored, exif) == seen <==> Depicts(stored, exif.zeroth[274], seen))
              && (Sideways(exif.zeroth[274]) <==> 5 <= exif.zeroth[274])
    ensures exif.NoExif? || 274 !in exif.zeroth || !(1 <= exif.zeroth[274] <= 8) ==> RotateImage(stored, exif) == stored
  {
    if exif.Exif? && ORIENTATION_TAG in exif.zeroth && 1 <= exif.zeroth[ORIENTATION_TAG] <= 8 {
      var orientation := exif.zeroth[ORIENTATION_TAG];
      UprightIsDepicted(stored, orientation);
      if Depicts(stored, orientation, seen) {
        DepictsOne(stored, orientation, seen, Upright(stored, orientation));
      }
      hide Depicts, Upright;
    }
  }

  /***** The clean copy *****/

  /** Where pixel (x, y) is in row-major order. */
  function Index(y: nat, x: nat, width: nat): nat { y * width + x }

  lemma IndexMoves(y: nat, x: nat, width: nat)
    ensures Index(y, x + 1, width) == Index(y, x, width) + 1
    ensures Index(y + 1, 0, width) == Index(y, width, width)
    ensures Index(0, 0, width) == 0
    ensures Index(y, x, width) >= Index(y, 0, width)
  {
    assert (y + 1) * width == y * width + width;
  }

  lemma IndexBelow(v: nat, u: nat, y: nat, width: nat)
    requires v < y && u < width
    ensures Index(v, u, width) < Index(y, 0, width)
  {
    assert (v + 1) * width <= y * width;
  }

  /** `list(img.getdata())` */
  method GetData<P>(img: array2<P>) returns (data: seq<P>)
    ensures |data| == Index(img.Length0, 0, img.Length1)
    ensures forall y: nat, x: nat :: y < img.Length0 && x < img.Length1 ==>
              Index(y, x, img.Length1) < |data| && data[Index(y, x, img.Length1)] == img[y, x]
  {
    IndexMoves(0, 0, img.Length1);
    hide Index;
    data := [];
    var y := 0;
    while y < img.Length0
      invariant 0 <= y <= img.Length0 && |data| == Index(y, 0, img.Length1)
      invariant forall v: nat, u: nat :: v < y && u < img.Length1 ==>
                  Index(v, u, img.Length1) < |data| && data[Index(v, u, img.Length1)] == img[v, u]
    {
      var x := 0;
      while x < img.Length1
        invariant 0 <= x <= img.Length1 && |data| == Index(y, x, img.Length1)
        invariant forall v: nat, u: nat :: v <= y && u < img.Length1 && (v < y || u < x) ==>
                    Index(v, u, img.Length1) < |data| && data[Index(v, u, img.Length1)] == img[v, u]
      {
        IndexMoves(y, x, img.Length1);
        data := data + [img[y, x]];
        x := x + 1;
      }
      IndexMoves(y, 0, img.Length1);
      y := y + 1;
    }
  }

  /** `img.putdata(data)`: one pass over the data, wrapping at the end of each row. */
  method PutData<P>(img: array2<P>, data: seq<P>)
    requires |data| == Index(img.Length0, 0, img.Length1)
    modifies img
    ensures forall y: nat, x: nat :: y < img.Length0 && x < img.Length1 ==>
              Index(y, x, img.Length1) < |data| && img[y, x] == data[Index(y, x, img.Length1)]
  {
    IndexMoves(0, 0, img.Length1);
    hide Index;
    var i, y, x := 0, 0, 0;
    while i < |data|
      invariant 0 <= i <= |data| && 0 <= y <= img.Length0 && 0 <= x && i == Index(y, x, img.Length1)
      invariant x < img.Length1 || img.Length1 == 0
      invariant forall v: nat, u: nat :: v < img.Length0 && u < img.Length1 && (v < y || (v == y && u < x)) ==>
                  Index(v, u, img.Length1) < i && img[v, u] == data[Index(v, u, img.Length1)]
    {
      IndexMoves(y, x, img.Length1);
      img[y, x] := data[i];
      i, x := i + 1, x + 1;
      if x == img.Length1 {
        x, y := 0, y + 1;
      }
    }
    if img.Length1 > 0 { PassEnds(y, x, img.Length0, img.Length1); }
  }

  lemma PassEnds(y: nat, x: nat, height: nat, width: nat)
    requires y <= height && x < width && Index(y, x, width) == Index(height, 0, width)
    ensures y == height
  {
    if y < height { IndexBelow(y, x, height, width); }
  }

  /** The refill: the new image has every pixel where the old one has it. */
  method Refill<P>(img: array2<P>, blank: P) returns (clean: array2<P>)
    ensures fresh(clean) && clean.Length0 == img.Length0 && clean.Length1 == img.Length1
    ensures forall y, x :: 0 <= y < img.Length0 && 0 <= x < img.Length1 ==> clean[y, x] == img[y, x]
  {
    hide Index;
    clean := new P[img.Length0, img.Length1]((_, _) => blank);
    var data := GetData(img);
    PutData(clean, data);
    forall y, x | 0 <= y < img.Length0 && 0 <= x < img.Length1 ensures clean[y, x] == img[y, x] {
      assert Index(y, x, img.Length1) < |data|;
    }
  }
}
