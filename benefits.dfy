/**
 * The benefits section: six benefit cards, each with a colour and three
 * particle emoji; a colour-class lookup that turns a colour and a class kind
 * into a Tailwind class; and the hovered card, for which the particles are
 * rendered with keys `particle-<card>-<i>`.
 */
module Benefits {
  import opened Wrappers
  import Decimal
  import opened ColorClasses

  /** A card of the table: its title, colour and particle emoji (icon and copy text are left out). */
  datatype Benefit = Benefit(title: string, color: string, particles: seq<string>)

  /** `benefits`, in display order. */
  function Table(): (t: seq<Benefit>)
    ensures |t| == 6
    ensures forall i :: 0 <= i < |t| ==> |t[i].particles| == 3
  {
    [
      Benefit("Save Time", "blue", ["⏱️", "⚡", "🔄"]),
      Benefit("Reduce Costs", "green", ["💰", "💵", "📉"]),
      Benefit("Ensure Quality", "purple", ["🛡️", "✅", "🔒"]),
      Benefit("Expand Network", "indigo", ["🌐", "🔗", "👥"]),
      Benefit("Improve Satisfaction", "pink", ["😊", "👍", "⭐"]),
      Benefit("Data Insights", "amber", ["📊", "📈", "🔍"])
    ]
  }

  /** Six cards, each with three particles and a colour the lookup knows. */
  lemma TableWellFormed()
    ensures |Table()| == 6
    ensures forall i :: 0 <= i < |Table()| ==> Table()[i].color in ColorMap && |Table()[i].particles| == 3
    ensures forall i, kind :: 0 <= i < |Table()| ==> GetColorClass(Table()[i].color, kind).Some?
  {
  }

  /** One rendered particle: its React key, its emoji and its `custom` delay index. */
  datatype ParticleElement = ParticleElement(key: string, emoji: string, custom: nat)

  /** `particle-${index}-${i}`. */
  function ParticleKey(index: nat, i: nat): (key: string)
    ensures var prefix := "particle-" + Decimal.NatToString(index) + "-";
      |prefix| < |key| && key[..|prefix|] == prefix && key[|prefix|..] == Decimal.NatToString(i)
  {
    "particle-" + Decimal.NatToString(index) + "-" + Decimal.NatToString(i)
  }

  /** Within one card, different particles get different keys. */
  lemma ParticleKeyInjective(index: nat, i: nat, j: nat)
    requires i != j
    ensures ParticleKey(index, i) != ParticleKey(index, j)
  {
    Decimal.NatToStringInjective(i, j);
  }

  /** `createParticles(index)`: one element per emoji of the card, in order. */
  function CreateParticles(index: nat): (ps: seq<ParticleElement>)
    requires index < |Table()|
    ensures |ps| == |Table()[index].particles|
    ensures forall i :: 0 <= i < |ps| ==> ps[i].emoji == Table()[index].particles[i] && ps[i].custom == i
    ensures forall i :: 0 <= i < |ps| ==> ps[i].key == ParticleKey(index, i)
  {
    var emoji := Table()[index].particles;
    seq(|emoji|, i requires 0 <= i < |emoji| => ParticleElement(ParticleKey(index, i), emoji[i], i))
  }

  /** The keys of one card's particles are pairwise distinct, as React requires of siblings. */
  lemma ParticleKeysDistinct(index: nat)
    requires index < |Table()|
    ensures forall i, j :: 0 <= i < j < |CreateParticles(index)| ==>
              CreateParticles(index)[i].key != CreateParticles(index)[j].key
  {
    var ps := CreateParticles(index);
    forall i, j | 0 <= i < j < |ps|
      ensures ps[i].key != ps[j].key
    {
      ParticleKeyInjective(index, i, j);
    }
  }

  /** The particles card `index` renders: those of `createParticles(index)` while hovered, none otherwise. */
  function RenderedParticles(hovered: Option<nat>, index: nat): (ps: seq<ParticleElement>)
    requires index < |Table()|
    ensures ps != [] <==> hovered == Some(index)
    ensures hovered == Some(index) ==> ps == CreateParticles(index)
  {
    TableWellFormed();
    if hovered == Some(index) then CreateParticles(index) else []
  }

  /** The `hoveredBenefit` state. */
  class CardHover {
    var hoveredBenefit: Option<nat>

    constructor ()
      ensures hoveredBenefit == None
    {
      hoveredBenefit := None;
    }

    /** `onMouseEnter` of card `index`: only that card shows particles. */
    method Enter(index: nat)
      requires index < |Table()|
      modifies this
      ensures hoveredBenefit == Some(index)
      ensures forall j :: 0 <= j < |Table()| ==> (RenderedParticles(hoveredBenefit, j) != [] <==> j == index)
    {
      hoveredBenefit := Some(index);
    }

    /** `onMouseLeave` of any card: no card shows particles. */
    method Leave()
      modifies this
      ensures hoveredBenefit == None
      ensures forall j :: 0 <= j < |Table()| ==> RenderedParticles(hoveredBenefit, j) == []
    {
      hoveredBenefit := None;
    }
  }
}
