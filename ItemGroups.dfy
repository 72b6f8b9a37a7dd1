/**
 * The left-scrolling text group: messages enter at the right edge of the
 * perimeter, move left every tick, are dropped once they have left on the
 * left, and a new one is spawned whenever nothing is still emerging on the right.
 */
module ItemGroups {
  import opened Items

  /** A message in flight: its rendered text, its rectangle and its leftward speed in pixels per tick. */
  datatype Message = Message(content: Surface, rect: Rect, speed: int)

  /** A new message: its middle-left point is placed on the perimeter's middle-right point. */
  function Spawn(perimeter: Rect, content: Surface, speed: int): (m: Message)
    ensures m.rect.left == perimeter.Right()
    ensures m.rect.CenterY() == perimeter.CenterY()
    ensures m.rect.width == content.width && m.rect.height == content.height
    ensures m.content == content && m.speed == speed
  {
    Message(content, Rect(perimeter.Right(), perimeter.CenterY() - content.height / 2, content.width, content.height), speed)
  }

  /** One step of a leftward scrolling movement: the x coordinate drops by the speed. */
  function Moved(m: Message): Message
  {
    m.(rect := m.rect.(left := m.rect.left - m.speed))
  }

  /** Every message moved one step, in order. */
  function MoveAll(s: seq<Message>): (r: seq<Message>)
    ensures |r| == |s|
  {
    if s == [] then [] else MoveAll(s[..|s| - 1]) + [Moved(s[|s| - 1])]
  }

  /** Moving the group moves each message in its place: the i-th moved message is the i-th message moved. */
  lemma {:induction false} MoveAllAt(s: seq<Message>, i: nat)
    requires i < |s|
    ensures MoveAll(s)[i] == Moved(s[i])
    decreases |s|
  {
    if i < |s| - 1 {
      MoveAllAt(s[..|s| - 1], i);
    }
  }

  /** A message n steps further on. */
  function Shifted(m: Message, n: nat): Message
  {
    m.(rect := m.rect.(left := m.rect.left - n * m.speed))
  }

  /** The messages kept by the removal pass: those whose right edge is not left of the perimeter. */
  function Survivors(perimeter: Rect, s: seq<Message>): (r: seq<Message>)
    ensures |r| <= |s|
  {
    if s == [] then []
    else
      var last := s[|s| - 1];
      Survivors(perimeter, s[..|s| - 1]) + (if last.rect.Right() < perimeter.left then [] else [last])
  }

  /** Every message moved once, then the ones that left on the left dropped. */
  function Advance(perimeter: Rect, s: seq<Message>): (r: seq<Message>)
    ensures |r| <= |s|
  {
    Survivors(perimeter, MoveAll(s))
  }

  /** No message is still emerging: every right edge is at or inside the perimeter's right edge. */
  predicate Emerged(perimeter: Rect, s: seq<Message>)
  {
    forall i :: 0 <= i < |s| ==> s[i].rect.Right() <= perimeter.Right()
  }

  /** One call of `update`, with `next` the message text that a `create` would render. */
  function Tick(perimeter: Rect, speed: int, s: seq<Message>, next: Surface): seq<Message>
  {
    var rest := Advance(perimeter, s);
    if Emerged(perimeter, rest) then rest + [Spawn(perimeter, next, speed)] else rest
  }

  /** Successive calls of `update`, one per surface in `texts`. */
  function Ticks(perimeter: Rect, speed: int, s: seq<Message>, texts: seq<Surface>): seq<Message>
  {
    if texts == [] then s
    else Tick(perimeter, speed, Ticks(perimeter, speed, s, texts[..|texts| - 1]), texts[|texts| - 1])
  }

  /** n calls of `update` while `create` is switched off. */
  function Drift(perimeter: Rect, s: seq<Message>, n: nat): seq<Message>
  {
    if n == 0 then s else Advance(perimeter, Drift(perimeter, s, n - 1))
  }

  /** `math.ceil(a / b)` for natural numbers. */
  function CeilDiv(a: nat, b: nat): (k: nat)
    requires b > 0
    ensures (k - 1) * b < a <= k * b
  {
    var k := (a + b - 1) / b;
    assert a + b - 1 == k * b + (a + b - 1) % b;
    k
  }

  class LeftScrollingText {
    const perimeter: Rect
    /** The per-tick speed of new messages, `scroll_speed / fps` in the settings. */
    const speed: int
    var items: seq<Message>

    /** A new group holds no messages. */
    constructor (perimeter: Rect, speed: int)
      ensures this.perimeter == perimeter && this.speed == speed
      ensures items == []
    {
      this.perimeter := perimeter;
      this.speed := speed;
      items := [];
    }

    /** Add one message, rendered as `content`, just beyond the right edge. */
    method Create(content: Surface)
      modifies this
      ensures items == old(items) + [Spawn(perimeter, content, speed)]
    {
      items := items + [Spawn(perimeter, content, speed)];
    }

    /**
     * Move every message, kill the ones whose right edge is left of the
     * perimeter, and create a message (rendered as `next`) when every
     * remaining message has fully emerged.
     */
    method Update(next: Surface)
      modifies this
      ensures items == Tick(perimeter, speed, old(items), next)
    {
      var moved: seq<Message> := [];
      var i := 0;
      while i < |items|
        invariant 0 <= i <= |items|
        invariant moved == MoveAll(items[..i])
      {
        assert items[..i + 1][..i] == items[..i];
        moved := moved + [Moved(items[i])];
        i := i + 1;
      }
      assert items[..|items|] == items;

      var kept: seq<Message> := [];
      i := 0;
      while i < |moved|
        invariant 0 <= i <= |moved|
        invariant kept == Survivors(perimeter, moved[..i])
      {
        assert moved[..i + 1][..i] == moved[..i];
        if !(moved[i].rect.Right() < perimeter.left) {
          kept := kept + [moved[i]];
        }
        i := i + 1;
      }
      assert moved[..|moved|] == moved;
      assert kept == Advance(perimeter, old(items));
      items := kept;

      var emerged := AllEmerged(items);
      if emerged {
        Create(next);
      }
    }

    /** The check of `update` that no message is still emerging on the right. */
    method AllEmerged(s: seq<Message>) returns (emerged: bool)
      ensures emerged <==> forall j :: 0 <= j < |s| ==> s[j].rect.Right() <= perimeter.Right()
    {
      emerged := true;
      var i := 0;
      while i < |s|
        invariant 0 <= i <= |s|
        invariant emerged <==> forall j :: 0 <= j < i ==> s[j].rect.Right() <= perimeter.Right()
      {
        emerged := emerged && s[i].rect.Right() <= perimeter.Right();
        i := i + 1;
      }
    }
  }

  /** A message survives the removal pass exactly when its right edge is not left of the perimeter. */
  lemma {:induction false} SurvivorsExactly(perimeter: Rect, s: seq<Message>, m: Message)
    ensures m in Survivors(perimeter, s) <==> m in s && m.rect.Right() >= perimeter.left
  {
    if s != [] {
      SurvivorsExactly(perimeter, s[..|s| - 1], m);
      assert s == s[..|s| - 1] + [s[|s| - 1]];
    }
  }

  /** The removal pass keeps the survivors in their original order. */
  lemma {:induction false} SurvivorsKeepOrder(perimeter: Rect, s: seq<Message>, t: seq<Message>)
    ensures Survivors(perimeter, s + t) == Survivors(perimeter, s) + Survivors(perimeter, t)
    decreases |t|
  {
    if t == [] {
      assert s + t == s;
    } else {
      var init := t[..|t| - 1];
      assert (s + t)[..|s + t| - 1] == s + init;
      SurvivorsKeepOrder(perimeter, s, init);
    }
  }

  /** After an update the group is never empty, and it gained a message exactly when nothing was still emerging. */
  lemma TickReplenishes(perimeter: Rect, speed: int, s: seq<Message>, next: Surface)
    ensures |Tick(perimeter, speed, s, next)| >= 1
    ensures Emerged(perimeter, Advance(perimeter, s)) <==>
              Tick(perimeter, speed, s, next) == Advance(perimeter, s) + [Spawn(perimeter, next, speed)]
    ensures !Emerged(perimeter, Advance(perimeter, s)) <==> Tick(perimeter, speed, s, next) == Advance(perimeter, s)
  {
  }

  /** An update of a lone message: it moves one step and is dropped if it has passed the left edge. */
  lemma AdvanceOne(perimeter: Rect, m: Message)
    ensures Advance(perimeter, [m]) == if Moved(m).rect.Right() < perimeter.left then [] else [Moved(m)]
  {
    assert [m][..0] == [];
    assert MoveAll([m]) == [Moved(m)];
    var x := Moved(m);
    assert [x][..0] == [];
    assert Survivors(perimeter, [x]) == Survivors(perimeter, []) + (if x.rect.Right() < perimeter.left then [] else [x]);
  }

  /** Moving is done message by message: it distributes over concatenation. */
  lemma {:induction false} MoveAllAppend(s: seq<Message>, t: seq<Message>)
    ensures MoveAll(s + t) == MoveAll(s) + MoveAll(t)
    decreases |t|
  {
    if t == [] {
      assert s + t == s;
    } else {
      var init := t[..|t| - 1];
      assert (s + t)[..|s + t| - 1] == s + init;
      MoveAllAppend(s, init);
    }
  }

  /**
   * With `create` switched off, the messages drift independently: n updates
   * of a group are n updates of each part of it, concatenated in order.
   */
  lemma {:induction false} DriftAppend(perimeter: Rect, s: seq<Message>, t: seq<Message>, n: nat)
    ensures Drift(perimeter, s + t, n) == Drift(perimeter, s, n) + Drift(perimeter, t, n)
  {
    if n > 0 {
      DriftAppend(perimeter, s, t, n - 1);
      var a, b := Drift(perimeter, s, n - 1), Drift(perimeter, t, n - 1);
      MoveAllAppend(a, b);
      SurvivorsKeepOrder(perimeter, MoveAll(a), MoveAll(b));
    }
  }

  /** After n steps the message's right edge has not passed strictly left of the perimeter. */
  predicate StillVisible(perimeter: Rect, m: Message, n: nat)
  {
    m.rect.Right() - n * m.speed >= perimeter.left
  }

  /**
   * With `create` switched off, a group of visible messages moving left keeps,
   * after n updates, exactly the messages moved n steps whose right edge has
   * not passed strictly left of the perimeter.
   */
  lemma {:induction false} DriftMembers(perimeter: Rect, s: seq<Message>, n: nat, x: Message)
    requires forall i :: 0 <= i < |s| ==> s[i].speed >= 0 && s[i].rect.Right() >= perimeter.left
    ensures x in Drift(perimeter, s, n) <==>
              exists i :: 0 <= i < |s| && x == Shifted(s[i], n) && StillVisible(perimeter, s[i], n)
  {
    if s == [] {
      var none: seq<Message> := [];
      assert Drift(perimeter, none, n) == [] by {
        DriftAppend(perimeter, none, none, n);
        assert none + none == none;
      }
    } else {
      var init, last := s[..|s| - 1], s[|s| - 1];
      assert s == init + [last];
      DriftAppend(perimeter, init, [last], n);
      DriftMembers(perimeter, init, n, x);
      DriftOfOne(perimeter, last, n);
      assert x in Drift(perimeter, [last], n) <==> x == Shifted(last, n) && StillVisible(perimeter, last, n);
      if exists i :: 0 <= i < |s| && x == Shifted(s[i], n) && StillVisible(perimeter, s[i], n) {
        var i :| 0 <= i < |s| && x == Shifted(s[i], n) && StillVisible(perimeter, s[i], n);
        if i < |init| {
          assert init[i] == s[i];
        }
      }
      if x in Drift(perimeter, init, n) {
        var i :| 0 <= i < |init| && x == Shifted(init[i], n) && StillVisible(perimeter, init[i], n);
        assert s[i] == init[i];
      }
    }
  }

  /**
   * With `create` switched off, a single message that starts with its right
   * edge inside the perimeter's left edge and moves left at a non-negative speed
   * is gone after n updates exactly when its right edge has then passed strictly
   * left of the perimeter; otherwise it has moved n steps.
   */
  lemma {:induction false} DriftOfOne(perimeter: Rect, m: Message, n: nat)
    requires m.speed >= 0 && m.rect.Right() >= perimeter.left
    ensures Drift(perimeter, [m], n) ==
              if m.rect.Right() - n * m.speed < perimeter.left then [] else [Shifted(m, n)]
  {
    if n == 0 {
      assert Shifted(m, 0) == m;
    } else {
      DriftOfOne(perimeter, m, n - 1);
      var before := Drift(perimeter, [m], n - 1);
      assert (n - 1) * m.speed == n * m.speed - m.speed;
      if m.rect.Right() - (n - 1) * m.speed < perimeter.left {
        assert before == [];
        assert Advance(perimeter, []) == [];
      } else {
        assert before == [Shifted(m, n - 1)];
        assert Moved(Shifted(m, n - 1)) == Shifted(m, n);
        AdvanceOne(perimeter, Shifted(m, n - 1));
      }
    }
  }

  /**
   * The deletion scenario of the tests: with `create` switched off, a fresh
   * message of width w at speed s > 0 is gone after k = ceil((w + perimeter width) / s)
   * updates, unless k * s is exactly w + perimeter width: removal needs the right
   * edge strictly left of the perimeter, so then one more update is needed.
   */
  lemma EmptiedAfterCrossing(perimeter: Rect, content: Surface, s: int)
    requires s > 0 && perimeter.width >= 0
    ensures var m, total := Spawn(perimeter, content, s), content.width + perimeter.width;
            var k := CeilDiv(total, s);
            (k * s > total ==> Drift(perimeter, [m], k) == [])
            && (k * s == total ==> |Drift(perimeter, [m], k)| == 1 && Drift(perimeter, [m], k + 1) == [])
  {
    var m, total := Spawn(perimeter, content, s), content.width + perimeter.width;
    var k := CeilDiv(total, s);
    DriftOfOne(perimeter, m, k);
    DriftOfOne(perimeter, m, k + 1);
    assert m.rect.Right() == perimeter.left + total;
    assert (k + 1) * s == k * s + s;
  }

  /** Before the fresh message has fully emerged, an update moves it and adds nothing. */
  lemma {:induction false} EmergingAlone(perimeter: Rect, speed: int, content: Surface, texts: seq<Surface>, s: int)
    requires 0 < s <= perimeter.width
    requires |texts| * s < content.width
    ensures Ticks(perimeter, speed, [Spawn(perimeter, content, s)], texts) == [Shifted(Spawn(perimeter, content, s), |texts|)]
  {
    var m := Spawn(perimeter, content, s);
    if texts != [] {
      var j := |texts| - 1;
      assert j * s < content.width by {
        assert j * s == |texts| * s - s;
      }
      EmergingAlone(perimeter, speed, content, texts[..j], s);
      assert Moved(Shifted(m, j)) == Shifted(m, |texts|);
      assert Shifted(m, |texts|).rect.Right() > perimeter.Right();
      AdvanceOne(perimeter, Shifted(m, j));
    }
  }

  /**
   * The replenishment scenario of the tests: a fresh message of width w moving
   * at speed s, with 0 < s <= perimeter width, has fully emerged after
   * ceil(w / s) updates, and that update adds exactly one message.
   */
  lemma ReplenishedOnEmergence(perimeter: Rect, speed: int, content: Surface, texts: seq<Surface>, s: int)
    requires 0 < s <= perimeter.width && content.width > 0
    requires |texts| == CeilDiv(content.width, s)
    ensures |Ticks(perimeter, speed, [Spawn(perimeter, content, s)], texts)| == 2
  {
    var m := Spawn(perimeter, content, s);
    var k := |texts|;
    var j := k - 1;
    var crossed := k * s;
    assert j * s == crossed - s;
    assert crossed - s < content.width <= crossed;
    EmergingAlone(perimeter, speed, content, texts[..j], s);
    var last := Shifted(m, k);
    assert Moved(Shifted(m, j)) == last;
    assert last.rect.Right() == perimeter.Right() + content.width - crossed;
    LastEmerges(perimeter, speed, Shifted(m, j), texts[j]);
    assert Ticks(perimeter, speed, [m], texts) == Tick(perimeter, speed, [Shifted(m, j)], texts[j]);
  }

  /** A lone message that stays visible and fully emerges on this update is joined by a new one. */
  lemma LastEmerges(perimeter: Rect, speed: int, x: Message, next: Surface)
    requires perimeter.left <= Moved(x).rect.Right() <= perimeter.Right()
    ensures Tick(perimeter, speed, [x], next) == [Moved(x), Spawn(perimeter, next, speed)]
  {
    AdvanceOne(perimeter, x);
    assert Emerged(perimeter, [Moved(x)]);
  }
}
