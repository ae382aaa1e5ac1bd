/**
 * `pack_cubemap_transform`: a cubemap alignment laid out the way the
 * shaders' constant buffers expect a 3x3 rotation, as three padded rows.
 *
 * The rotation matrix itself is built from Euler angles with
 * `glm::yawPitchRoll`, which is trigonometry and is not modelled: callers
 * pass the resulting matrix in as a `Rotation`.
 */
module CubemapTransform {
  import opened Gpu
  import opened PostprocessParams

  /** A 3x3 matrix as glm stores it: three columns. */
  datatype Rotation = Rotation(c0: Vec3, c1: Vec3, c2: Vec3)

  /** `Cubemap_transform_packed`: three rows of four floats, then scale and offset. */
  datatype Packed = Packed(row0: Vec4, row1: Vec4, row2: Vec4, scale: Vec3, offset: Vec3)

  /** The first three components of a padded row. */
  function Narrow(v: Vec4): Vec3 {
    Vec3(v.x, v.y, v.z)
  }

  /** `glm::vec4(v, 0.0f)`: a padded row that narrows back to `v`. */
  function Widen(v: Vec3): (r: Vec4)
    ensures r.w == 0.0 && Narrow(r) == v
  {
    Vec4(v.x, v.y, v.z, 0.0)
  }

  /** The rows, scale and offset of a cubemap transform as the constants hold them. */
  function Pack(rotation: Rotation, scale: Vec3, offset: Vec3): (p: Packed)
    ensures p.row0.w == 0.0 && p.row1.w == 0.0 && p.row2.w == 0.0
  {
    Packed(Widen(rotation.c0), Widen(rotation.c1), Widen(rotation.c2), scale, offset)
  }

  /** `pack_cubemap_transform(alignment)`, given the rotation built from `alignment.rotation`. */
  function PackAlignment(alignment: CubemapAlignment, rotation: Rotation): Packed {
    Pack(rotation, alignment.scale, alignment.offset)
  }

  /** The matrix the shader reads back out of the three rows. */
  function Rows(p: Packed): Rotation {
    Rotation(Narrow(p.row0), Narrow(p.row1), Narrow(p.row2))
  }

  /** Packing loses nothing: the rows give back the matrix, scale and offset are kept. */
  lemma PackInverse(rotation: Rotation, scale: Vec3, offset: Vec3)
    ensures Rows(Pack(rotation, scale, offset)) == rotation
    ensures Pack(rotation, scale, offset).scale == scale
    ensures Pack(rotation, scale, offset).offset == offset
  {
  }

  /**
   * The packed alignment carries its scale and offset and the matrix, and
   * nothing of the mip scale, which the full-screen passes never upload.
   */
  lemma PackAlignmentFields(alignment: CubemapAlignment, rotation: Rotation, mipScale: real)
    ensures PackAlignment(alignment, rotation).scale == alignment.scale
    ensures PackAlignment(alignment, rotation).offset == alignment.offset
    ensures Rows(PackAlignment(alignment, rotation)) == rotation
    ensures PackAlignment(alignment.(mipScale := mipScale), rotation) == PackAlignment(alignment, rotation)
  {
    PackInverse(rotation, alignment.scale, alignment.offset);
  }
}
