/**
 * The drawable pieces of screen_animator: pygame rectangles and surfaces, reduced
 * to their geometry, and the `Item` sprite whose rectangle follows its content.
 */
module Items {

  /** A pygame `Rect`: position of the top-left corner and size, in whole pixels. */
  datatype Rect = Rect(left: int, top: int, width: int, height: int) {
    function Right(): int { left + width }
    function Bottom(): int { top + height }
    /** pygame's `centery`: the top plus half the height, rounded down. */
    function CenterY(): int { top + height / 2 }
  }

  /**
   * A pygame `Surface`, kept opaque: an identity and the size that
   * `get_rect()` reports.
   */
  datatype Surface = Surface(id: nat, width: nat, height: nat) {
    /** `get_rect()`: a rectangle at the origin with the surface's size. */
    function GetRect(): Rect { Rect(0, 0, width, height) }
  }

  /** A pygame sprite group: the sprites it holds, in the order they were added. */
  class SpriteGroup {
    var sprites: seq<Item>

    constructor ()
      ensures sprites == []
    {
      sprites := [];
    }
  }

  /** A sprite with content; its rectangle is derived from the content. */
  class Item {
    var content: Surface
    var rect: Rect

    /**
     * Construction registers the new item with the group and assigns the
     * content; the perimeter is accepted but not kept.
     */
    constructor (group: SpriteGroup, content: Surface, perimeter: Rect)
      modifies group
      ensures group.sprites == old(group.sprites) + [this]
      ensures this.content == content
      ensures rect == Rect(0, 0, content.width, content.height)
    {
      this.content := content;
      this.rect := content.GetRect();
      new;
      group.sprites := group.sprites + [this];
    }

    /** The `content` setter: store the surface and take a fresh rectangle from it. */
    method SetContent(content: Surface)
      modifies this
      ensures this.content == content
      ensures rect == Rect(0, 0, content.width, content.height)
    {
      this.content := content;
      rect := content.GetRect();
    }
  }

  /** The fixture of the item tests: a 20 by 10 surface gives the rectangle (0, 0, 20, 10). */
  method ContentSetsRect(group: SpriteGroup)
    modifies group
  {
    var surface := Surface(0, 20, 10);
    var item := new Item(group, surface, Rect(0, 0, 1000, 500));
    assert item.rect == Rect(0, 0, 20, 10);
    assert item.content == surface;
    assert group.sprites[|group.sprites| - 1] == item;
  }
}
