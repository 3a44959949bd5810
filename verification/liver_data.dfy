/**
 * The fixture the interactive core works on: the nine cosmological groups of the liver,
 * the inscription positions each group owns, and the forty inscriptions. Only the fields
 * the core reads are kept (the numeric id and the group); names, gods and descriptions
 * are presentation data.
 */
module LiverData {
  datatype Group =
    | Sky | Water | Earth | Underworld | ParsFamiliaris
    | GallBladder | CentralSection | ParsHostilis | Retro

  const AllGroups: seq<Group> :=
    [Sky, Water, Earth, Underworld, ParsFamiliaris, GallBladder, CentralSection, ParsHostilis, Retro]

  /** The `id` string each group carries, which is also the inscription's `groupId`. */
  function GroupKey(g: Group): string
  {
    match g
    case Sky => "sky"
    case Water => "water"
    case Earth => "earth"
    case Underworld => "underworld"
    case ParsFamiliaris => "pars_familiaris"
    case GallBladder => "gall_bladder"
    case CentralSection => "central_section"
    case ParsHostilis => "pars_hostilis"
    case Retro => "retro"
  }

  /** The inscription positions each group lists. */
  function GroupPositions(g: Group): seq<int>
  {
    match g
    case Sky => [1, 2, 3, 4]
    case Water => [5, 6, 7, 8]
    case Earth => [9, 10, 11, 12]
    case Underworld => [13, 14, 15, 16]
    case ParsFamiliaris => [17, 18, 19, 20, 21, 22, 23, 24]
    case GallBladder => [25, 26, 27, 28]
    case CentralSection => [29, 30, 31, 32]
    case ParsHostilis => [33, 34, 35, 36, 37, 38]
    case Retro => [39, 40]
  }

  /** An sRGB colour with 8-bit channels, as written `#rrggbb`. */
  datatype Rgb = Rgb(r: int, g: int, b: int)

  /** The colour each group declares in the colour key. */
  function GroupColor(g: Group): Rgb
  {
    match g
    case Sky => Rgb(0x87, 0xCE, 0xEB)
    case Water => Rgb(0x00, 0x8B, 0x8B)
    case Earth => Rgb(0xCD, 0x85, 0x3F)
    case Underworld => Rgb(0x80, 0x80, 0x00)
    case ParsFamiliaris => Rgb(0xFF, 0x00, 0x00)
    case GallBladder => Rgb(0xFF, 0x8C, 0x00)
    case CentralSection => Rgb(0xFF, 0xA5, 0x00)
    case ParsHostilis => Rgb(0x93, 0x70, 0xDB)
    case Retro => Rgb(0x80, 0x80, 0x80)
  }

  const MinInscriptionId := 1
  const MaxInscriptionId := 40

  predicate IsInscriptionId(id: int)
  {
    MinInscriptionId <= id <= MaxInscriptionId
  }

  /** The group an inscription id belongs to, read off the position ranges. */
  function GroupOf(id: int): (g: Group)
    requires IsInscriptionId(id)
    ensures id in GroupPositions(g)
  {
    if id <= 4 then Sky
    else if id <= 8 then Water
    else if id <= 12 then Earth
    else if id <= 16 then Underworld
    else if id <= 24 then ParsFamiliaris
    else if id <= 28 then GallBladder
    else if id <= 32 then CentralSection
    else if id <= 38 then ParsHostilis
    else Retro
  }

  /** The group position lists partition 1..40: every id is listed by exactly one group. */
  lemma GroupsPartitionIds(id: int, g: Group)
    ensures id in GroupPositions(g) <==> IsInscriptionId(id) && g == GroupOf(id)
  {
  }

  datatype Inscription = Inscription(id: int, group: Group)

  /** The forty inscriptions, in the order the data lists them. */
  const LiverInscriptions: seq<Inscription> :=
    seq(MaxInscriptionId, i requires 0 <= i < MaxInscriptionId => Inscription(i + 1, GroupOf(i + 1)))

  lemma InscriptionsCoverIds()
    ensures |LiverInscriptions| == MaxInscriptionId
    ensures forall i :: 0 <= i < |LiverInscriptions| ==>
      LiverInscriptions[i].id == i + 1 && LiverInscriptions[i].group == GroupOf(i + 1)
  {
  }
}
