/** The exclamation mark, question mark and heart icons shown above a trainer: their creation and
    the small hop their sprite callback makes. */
module Icons {
  import opened Fixed

  /** The three field effects this part creates a sprite for. */
  datatype IconEffect = ExclamationMarkIcon | QuestionMarkIcon | HeartIcon

  /** A sprite coordinate pair. */
  datatype Point = Point(x: s16, y: s16)

  /** The trainer's own sprite, as the callback reads it: `pos1` and `pos2`. */
  datatype ObjectSprite = ObjectSprite(pos1: Point, pos2: Point)

  /** The hop: `data[3]` is the step and `data[4]` the vertical offset it is added into. */
  datatype Bounce = Bounce(step: s16, offset: s16)

  /** `SetIconSpriteData` sets the step to -5; the offset starts at 0 as in any new sprite. */
  const BounceStart := Bounce(-5, 0)

  /** One callback tick: the step is added into the offset, then the step goes up by one while the
      offset is nonzero and is reset to 0 once the offset is back at 0. */
  function BounceTick(b: Bounce): Bounce
  {
    var offset := WrapS16(b.offset + b.step);
    Bounce(if offset != 0 then WrapS16(b.step + 1) else 0, offset)
  }

  /** The hop after n ticks. */
  function BounceAfter(n: nat): Bounce
  {
    if n == 0 then BounceStart else BounceTick(BounceAfter(n - 1))
  }

  /** The hop tick by tick until it comes to rest: up 5, 4, 3, 2, 1 pixels, a tick at the top, and
      back down 1, 2, 3, 4, 5. */
  const BounceTrace: seq<Bounce> := [
    Bounce(-5, 0), Bounce(-4, -5), Bounce(-3, -9), Bounce(-2, -12), Bounce(-1, -14), Bounce(0, -15),
    Bounce(1, -15), Bounce(2, -14), Bounce(3, -12), Bounce(4, -9), Bounce(5, -5), Bounce(0, 0)]

  /** Each tick of the trace leads to the next one. */
  lemma BounceTraceSteps(k: nat)
    requires k + 1 < |BounceTrace|
    ensures BounceTick(BounceTrace[k]) == BounceTrace[k + 1]
  {
  }

  /** The first twelve states of the hop are those of the trace. */
  lemma {:induction false} BounceFollowsTrace(n: nat)
    requires n < |BounceTrace|
    ensures BounceAfter(n) == BounceTrace[n]
  {
    if n > 0 {
      BounceFollowsTrace(n - 1);
      BounceTraceSteps(n - 1);
    }
  }

  /** From the eleventh tick on the hop is over: step and offset stay 0. */
  lemma {:induction false} BounceSettles(n: nat)
    requires n >= 11
    ensures BounceAfter(n) == Bounce(0, 0)
  {
    if n == 11 {
      BounceFollowsTrace(11);
    } else {
      BounceSettles(n - 1);
    }
  }

  /** The icon never sinks below the trainer's head nor rises more than 15 pixels above it, and the
      step stays within 5 either way. */
  lemma BounceBounded(n: nat)
    ensures -15 <= BounceAfter(n).offset <= 0 && -5 <= BounceAfter(n).step <= 5
  {
    if n < |BounceTrace| {
      BounceFollowsTrace(n);
    } else {
      BounceSettles(n);
    }
  }

  /** The icon is at the trainer's head exactly before the first tick and from the eleventh on. */
  lemma BounceLevelExactly(n: nat)
    ensures BounceAfter(n).offset == 0 <==> n == 0 || n >= 11
  {
    if n < |BounceTrace| {
      BounceFollowsTrace(n);
    } else {
      BounceSettles(n);
    }
  }

  /** An icon sprite. */
  class TrainerIcon {
    const effect: IconEffect         // data[7]
    const subpriority: int
    const priority: int              // oam.priority
    const coordOffsetEnabled: bool
    const animNum: int               // the animation started
    const localId: s16               // data[0]
    const mapNum: s16                // data[1]
    const mapGroup: s16              // data[2]
    var paletteNum: int              // oam.paletteNum
    var step: s16                    // data[3]
    var offset: s16                  // data[4]
    var pos1: Point
    var pos2: Point
    var stopped: bool                // the field effect has been stopped and the sprite freed
    ghost var ticks: nat

    /** The hop is the one that many ticks produce. */
    ghost predicate Valid()
      reads this
    {
      Bounce(step, offset) == BounceAfter(ticks)
    }

    /** A sprite created at (0, 0) with the template's palette 0, then set up by `SetIconSpriteData`
        from the three field-effect arguments (truncated to the sprite's 16-bit data). */
    constructor (effect: IconEffect, subpriority: int, animNum: int, localId: int, mapNum: int, mapGroup: int)
      ensures Valid() && ticks == 0 && step == -5 && offset == 0 && !stopped
      ensures this.effect == effect && this.subpriority == subpriority && this.animNum == animNum
      ensures priority == 1 && coordOffsetEnabled && paletteNum == 0
      ensures this.localId == TruncateS16(localId) && this.mapNum == TruncateS16(mapNum) && this.mapGroup == TruncateS16(mapGroup)
      ensures pos1 == Point(0, 0) && pos2 == Point(0, 0)
    {
      this.effect, this.subpriority, this.animNum := effect, subpriority, animNum;
      priority, coordOffsetEnabled, paletteNum := 1, true, 0;
      this.localId, this.mapNum, this.mapGroup := TruncateS16(localId), TruncateS16(mapNum), TruncateS16(mapGroup);
      step, offset := -5, 0;
      pos1, pos2 := Point(0, 0), Point(0, 0);
      stopped := false;
      ticks := 0;
    }

    /** `SpriteCB_TrainerIcons`: `target` is the trainer's sprite, or None when no object event has
        the icon's local id and map. Without a trainer, or once the animation has ended, the field
        effect is stopped; otherwise the hop advances and the icon follows the trainer, 16 pixels
        above it and `offset` pixels higher still. */
    method Callback(target: Option<ObjectSprite>, animEnded: bool) returns (stopEffect: Option<IconEffect>)
      requires Valid() && !stopped
      modifies this
      ensures Valid() && paletteNum == old(paletteNum)
      ensures target.None? || animEnded ==>
        stopped && stopEffect == Some(effect) && ticks == old(ticks)
        && step == old(step) && offset == old(offset) && pos1 == old(pos1) && pos2 == old(pos2)
      ensures target.Some? && !animEnded ==>
        !stopped && stopEffect == None && ticks == old(ticks) + 1
        && Bounce(step, offset) == BounceTick(old(Bounce(step, offset)))
        && -15 <= offset <= 0
        && pos1 == Point(target.value.pos1.x, WrapS16(target.value.pos1.y - 16))
        && pos2 == Point(target.value.pos2.x, WrapS16(target.value.pos2.y + offset))
    {
      if target.None? || animEnded {
        stopped := true;
        return Some(effect);
      }
      var obj := target.value;
      offset := WrapS16(offset + step);
      pos1 := Point(obj.pos1.x, WrapS16(obj.pos1.y - 16));
      pos2 := Point(obj.pos2.x, WrapS16(obj.pos2.y + offset));
      if offset != 0 {
        step := WrapS16(step + 1);
      } else {
        step := 0;
      }
      ticks := ticks + 1;
      BounceBounded(ticks);
      return None;
    }
  }

  /** `FldEff_ExclamationMarkIcon`: an icon at subpriority 0x53 with animation 0, when a sprite is
      free; the effect returns 0 either way. */
  method ExclamationMarkIconEffect(spriteFree: bool, args: seq<int>) returns (icon: TrainerIcon?, r: int)
    requires |args| >= 3
    ensures r == 0 && (icon != null <==> spriteFree)
    ensures icon != null ==>
      fresh(icon) && icon.Valid() && icon.ticks == 0 && !icon.stopped
      && icon.effect == ExclamationMarkIcon && icon.subpriority == 0x53 && icon.animNum == 0 && icon.paletteNum == 0
      && icon.localId == TruncateS16(args[0]) && icon.mapNum == TruncateS16(args[1]) && icon.mapGroup == TruncateS16(args[2])
  {
    icon := null;
    if spriteFree {
      icon := new TrainerIcon(ExclamationMarkIcon, 0x53, 0, args[0], args[1], args[2]);
    }
    return icon, 0;
  }

  /** `FldEff_QuestionMarkIcon`: an icon at subpriority 0x52 with animation 1. */
  method QuestionMarkIconEffect(spriteFree: bool, args: seq<int>) returns (icon: TrainerIcon?, r: int)
    requires |args| >= 3
    ensures r == 0 && (icon != null <==> spriteFree)
    ensures icon != null ==>
      fresh(icon) && icon.Valid() && icon.ticks == 0 && !icon.stopped
      && icon.effect == QuestionMarkIcon && icon.subpriority == 0x52 && icon.animNum == 1 && icon.paletteNum == 0
      && icon.localId == TruncateS16(args[0]) && icon.mapNum == TruncateS16(args[1]) && icon.mapGroup == TruncateS16(args[2])
  {
    icon := null;
    if spriteFree {
      icon := new TrainerIcon(QuestionMarkIcon, 0x52, 1, args[0], args[1], args[2]);
    }
    return icon, 0;
  }

  /** `FldEff_HeartIcon`: an icon at subpriority 0x52 with animation 0, drawn with palette 2. */
  method HeartIconEffect(spriteFree: bool, args: seq<int>) returns (icon: TrainerIcon?, r: int)
    requires |args| >= 3
    ensures r == 0 && (icon != null <==> spriteFree)
    ensures icon != null ==>
      fresh(icon) && icon.Valid() && icon.ticks == 0 && !icon.stopped
      && icon.effect == HeartIcon && icon.subpriority == 0x52 && icon.animNum == 0 && icon.paletteNum == 2
      && icon.localId == TruncateS16(args[0]) && icon.mapNum == TruncateS16(args[1]) && icon.mapGroup == TruncateS16(args[2])
  {
    icon := null;
    if spriteFree {
      icon := new TrainerIcon(HeartIcon, 0x52, 0, args[0], args[1], args[2]);
      icon.paletteNum := 2;
    }
    return icon, 0;
  }
}
