/** `SubTexture2D`: a rectangle of a texture given by its texture
    coordinates, corner by corner. `create_from_coords` picks a cell of a
    sprite sheet: `coords` counts cells, `cell_size` is in pixels and
    `sprite_size` counts cells (one by default). */
module SubTextures {
  import opened Wrappers

  datatype Vec2 = Vec2(x: real, y: real)

  /** The texture an image gives: only its size in pixels matters here. */
  class Texture2D {
    const width: int
    const height: int

    constructor (width: int, height: int)
      ensures this.width == width && this.height == height
    {
      this.width := width;
      this.height := height;
    }
  }

  datatype SubTexture2D = SubTexture2D(texture: Texture2D, texCoords: seq<Vec2>)

  /** `SubTexture2D(texture, min, max)`: the same texture object, and the
      corners bottom-left, bottom-right, top-right, top-left. */
  function NewSubTexture2D(texture: Texture2D, min: Vec2, max: Vec2): (s: SubTexture2D)
    ensures s.texture == texture && |s.texCoords| == 4
    ensures s.texCoords[0] == min && s.texCoords[2] == max
    ensures s.texCoords[1] == Vec2(max.x, min.y) && s.texCoords[3] == Vec2(min.x, max.y)
  {
    SubTexture2D(texture, [Vec2(min.x, min.y), Vec2(max.x, min.y), Vec2(max.x, max.y), Vec2(min.x, max.y)])
  }

  /** The lower corner: the start of the cell, over the texture size. */
  function CellMin(coords: Vec2, cellSize: Vec2, width: int, height: int): Vec2
    requires width != 0 && height != 0
  {
    Vec2((coords.x * cellSize.x) / (width as real), (coords.y * cellSize.y) / (height as real))
  }

  /** The upper corner: the end of the sprite, over the texture size. */
  function CellMax(coords: Vec2, cellSize: Vec2, spriteSize: Vec2, width: int, height: int): Vec2
    requires width != 0 && height != 0
  {
    Vec2(((coords.x + spriteSize.x) * cellSize.x) / (width as real),
         ((coords.y + spriteSize.y) * cellSize.y) / (height as real))
  }

  /** `create_from_coords`: the sub-texture between the two corners, or the
      division by zero a texture of zero width or height causes. */
  function CreateFromCoords(texture: Texture2D, coords: Vec2, cellSize: Vec2,
                            spriteSize: Vec2 := Vec2(1.0, 1.0)): (r: Result<SubTexture2D>)
    ensures r.Err? <==> texture.width == 0 || texture.height == 0
    ensures r.Err? ==> r.error == ZeroDivisionError
    ensures r.Ok? ==>
              r.value.texture == texture && |r.value.texCoords| == 4
              && r.value.texCoords[0] == CellMin(coords, cellSize, texture.width, texture.height)
              && r.value.texCoords[2] == CellMax(coords, cellSize, spriteSize, texture.width, texture.height)
    ensures r.Ok? ==>
              r.value == NewSubTexture2D(texture, CellMin(coords, cellSize, texture.width, texture.height),
                                         CellMax(coords, cellSize, spriteSize, texture.width, texture.height))
  {
    if texture.width == 0 || texture.height == 0 then Err(ZeroDivisionError)
    else
      Ok(NewSubTexture2D(texture, CellMin(coords, cellSize, texture.width, texture.height),
                         CellMax(coords, cellSize, spriteSize, texture.width, texture.height)))
  }

  /** The corners span `sprite_size` cells: the upper corner is the lower
      one plus `sprite * cell` over the texture size, so the default sprite
      covers exactly one cell. */
  lemma SpriteSpan(coords: Vec2, cellSize: Vec2, spriteSize: Vec2, width: int, height: int)
    requires width != 0 && height != 0
    ensures CellMax(coords, cellSize, spriteSize, width, height).x
            == CellMin(coords, cellSize, width, height).x + (spriteSize.x * cellSize.x) / (width as real)
    ensures CellMax(coords, cellSize, spriteSize, width, height).y
            == CellMin(coords, cellSize, width, height).y + (spriteSize.y * cellSize.y) / (height as real)
    ensures spriteSize == Vec2(1.0, 1.0) ==>
              CellMax(coords, cellSize, spriteSize, width, height).x - CellMin(coords, cellSize, width, height).x
              == cellSize.x / (width as real)
              && CellMax(coords, cellSize, spriteSize, width, height).y - CellMin(coords, cellSize, width, height).y
              == cellSize.y / (height as real)
  {
    var w, h := width as real, height as real;
    assert ((coords.x + spriteSize.x) * cellSize.x) / w == (coords.x * cellSize.x) / w + (spriteSize.x * cellSize.x) / w;
    assert ((coords.y + spriteSize.y) * cellSize.y) / h == (coords.y * cellSize.y) / h + (spriteSize.y * cellSize.y) / h;
  }

  /** On a texture of positive size, with non-negative coordinates, cell and
      sprite sizes, the lower corner is below and left of the upper one. */
  lemma CornersOrdered(coords: Vec2, cellSize: Vec2, spriteSize: Vec2, width: int, height: int)
    requires width > 0 && height > 0
    requires coords.x >= 0.0 && coords.y >= 0.0 && cellSize.x >= 0.0 && cellSize.y >= 0.0
    requires spriteSize.x >= 0.0 && spriteSize.y >= 0.0
    ensures CellMin(coords, cellSize, width, height).x <= CellMax(coords, cellSize, spriteSize, width, height).x
    ensures CellMin(coords, cellSize, width, height).y <= CellMax(coords, cellSize, spriteSize, width, height).y
  {
    SpriteSpan(coords, cellSize, spriteSize, width, height);
    var w, h := width as real, height as real;
    assert spriteSize.x * cellSize.x >= 0.0;
    assert spriteSize.y * cellSize.y >= 0.0;
    assert (spriteSize.x * cellSize.x) / w >= 0.0;
    assert (spriteSize.y * cellSize.y) / h >= 0.0;
  }
}
