/** The reference writer's culvert barrel (`tests/hy8runner/hy8_runner_culvert.py`): shape and
    material are free text, and writing a barrel stamps its roadway station and barrel spacing. */
module RunnerCulverts {
  import opened Text
  import opened RunnerOutput
  import Enums
  import Barrels
  import CardWriter

  const BoxShape: string := "box"
  const CircleShape: string := "circle"
  const ConcreteMaterial: string := "concrete"
  const SteelMaterial: string := "corrugated steel"

  datatype RunnerBarrel = RunnerBarrel(
    name: string,
    notes: string,
    shape: string,
    material: string,
    span: real,
    rise: real,
    inletInvertElevation: real,
    inletInvertStation: real,
    outletInvertElevation: real,
    outletInvertStation: real,
    numberOfBarrels: int,
    roadwayStation: real,
    barrelSpacing: real)

  /** `Hy8RunnerCulvertBarrel(count)`: a concrete circle of one barrel, every dimension zero. */
  function NewBarrel(count: nat): RunnerBarrel {
    RunnerBarrel("Culvert " + NatToString(count + 1), "", CircleShape, ConcreteMaterial,
                 0.0, 0.0, 0.0, 0.0, 0.0, 0.0, 1, 0.0, 0.0)
  }

  /** `culvert_shape`: 2 exactly for a box, 1 for any other text. */
  function ShapeCode(b: RunnerBarrel): (code: int)
    ensures code == 1 || code == 2
    ensures code == 2 <==> b.shape == BoxShape
  {
    if b.shape == BoxShape then 2 else 1
  }

  /** `culvert_material`: corrugated steel is 2, anything else 1, and a box is forced to 1. */
  function MaterialCode(b: RunnerBarrel): (code: int)
    ensures code == 1 || code == 2
    ensures code == 2 <==> b.shape != BoxShape && b.material == SteelMaterial
  {
    var material := if b.material == SteelMaterial then 2 else 1;
    if b.shape == BoxShape then 1 else material
  }

  /** Manning's n, for top and bottom alike: steel's exactly when the material code written is
      steel's, concrete's otherwise. */
  function ManningN(b: RunnerBarrel): (n: real)
    ensures n == 0.024 <==> MaterialCode(b) == 2
    ensures n == 0.024 || n == 0.012
  {
    if MaterialCode(b) == 2 then 0.024 else 0.012
  }

  /** A new barrel is written as a concrete circle with concrete's roughness. */
  lemma NewBarrelCodes(count: nat)
    ensures ShapeCode(NewBarrel(count)) == 1 && MaterialCode(NewBarrel(count)) == 1
    ensures ManningN(NewBarrel(count)) == 0.012 && NewBarrel(count).numberOfBarrels == 1
  {
  }

  /** The barrel after `write_culvert_to_file`: the roadway station reset to zero and the
      spacing set to one and a half spans. */
  function Written(b: RunnerBarrel): (w: RunnerBarrel) {
    b.(roadwayStation := 0.0, barrelSpacing := 1.5 * b.span)
  }

  /** The card each write opens with, in the order written. */
  const CulvertCardNames: seq<string> := ["STARTCULVERT", "CULVERTSHAPE", "CULVERTMATERIAL", "BARRELDATA",
    "EMBANKMENTTYPE", "NUMBEROFBARRELS", "INVERTDATA", "ROADCULVSTATION", "BARRELSPACING",
    "STARTCULVNOTES", "ENDCULVERT"]

  /** The lines that open with `cards` in turn, each followed by the matching `fields`. */
  function LinesOf(cards: seq<string>, fields: seq<string>): (r: seq<string>)
    requires |fields| == |cards|
    ensures |r| == |cards|
  {
    seq(|cards|, i requires 0 <= i < |cards| => Line(cards[i], fields[i]))
  }

  /** Each such line opens with its card and ends the line. */
  lemma LinesOpen(cards: seq<string>, fields: seq<string>)
    requires |fields| == |cards|
    ensures forall i :: 0 <= i < |cards| ==>
      StartsWith(LinesOf(cards, fields)[i], cards[i]) && EndsWith(LinesOf(cards, fields)[i], "\n")
  {
    forall i | 0 <= i < |cards|
      ensures StartsWith(LinesOf(cards, fields)[i], cards[i]) && EndsWith(LinesOf(cards, fields)[i], "\n")
    {
      LineShape(cards[i], fields[i]);
    }
  }

  /** What follows each card name in the writes of `write_culvert_to_file`; `repr` renders a
      float as Python's `str` does. */
  function CulvertFields(b: RunnerBarrel, repr: real -> string): (f: seq<string>)
    ensures |f| == |CulvertCardNames|
  {
    var w := Written(b);
    var n := repr(ManningN(b));
    ["    \"" + b.name + "\"",
     "    " + IntToString(ShapeCode(b)),
     " " + IntToString(MaterialCode(b)),
     "  " + repr(b.span) + " " + repr(b.rise) + " " + n + " " + n,
     " 2",
     " " + IntToString(b.numberOfBarrels),
     " " + repr(b.inletInvertStation) + " " + repr(b.inletInvertElevation) + " "
       + repr(b.outletInvertStation) + " " + repr(b.outletInvertElevation),
     " " + repr(w.roadwayStation),
     " " + repr(w.barrelSpacing),
     " \"" + b.notes + "\"\nENDCULVNOTES",
     ""]
  }

  /** The text of each `write` call of `write_culvert_to_file`, in order. */
  function CulvertWrites(b: RunnerBarrel, repr: real -> string): (w: seq<string>)
    ensures |w| == |CulvertCardNames|
  {
    LinesOf(CulvertCardNames, CulvertFields(b, repr))
  }

  /** Every barrel is written as the same eleven writes, each opening with its card name and
      ending a line, with the embankment type always 2 and the station always zero. */
  lemma CulvertCardOrder(b: RunnerBarrel, repr: real -> string)
    ensures var w := CulvertWrites(b, repr);
      |w| == |CulvertCardNames|
      && (forall i :: 0 <= i < |w| ==> StartsWith(w[i], CulvertCardNames[i]) && EndsWith(w[i], "\n"))
      && w[4] == "EMBANKMENTTYPE 2\n"
      && w[7] == "ROADCULVSTATION " + repr(0.0) + "\n"
  {
    LinesOpen(CulvertCardNames, CulvertFields(b, repr));
  }

  /** Writing a barrel a second time writes the same text and leaves it as it was. */
  lemma WriteTwice(b: RunnerBarrel, repr: real -> string)
    ensures Written(Written(b)) == Written(b)
    ensures CulvertWrites(Written(b), repr) == CulvertWrites(b, repr)
  {
  }

  /** The package's barrel with the same shape and material text. */
  function PackageShape(b: RunnerBarrel): Enums.CulvertShape {
    if b.shape == BoxShape then Enums.Box else Enums.Circle
  }

  function PackageMaterial(b: RunnerBarrel): Enums.CulvertMaterial {
    if b.material == SteelMaterial then Enums.CorrugatedSteel else Enums.Concrete
  }

  /** Against the package's writer, for a barrel of the same shape and material and no stored
      roughness: both write the same shape and material codes, and the same roughness except for
      a corrugated-steel box, which the reference writer gives concrete's and the package steel's. */
  lemma CodesAgainstPackage(b: RunnerBarrel, p: Barrels.BarrelValue)
    requires p.shape == PackageShape(b) && p.material == PackageMaterial(b)
    requires p.manningNTop.None?
    ensures ShapeCode(b) == p.shape.Code()
    ensures MaterialCode(b) == CardWriter.MaterialCode(p)
    ensures ManningN(b) == CardWriter.ManningPair(p).0 <==> !(b.shape == BoxShape && b.material == SteelMaterial)
    ensures b.shape == BoxShape && b.material == SteelMaterial ==>
      ManningN(b) == 0.012 && CardWriter.ManningPair(p) == (0.024, 0.024)
  {
    assert CardWriter.ManningPair(p) == Barrels.ManningValues(p);
  }

  /** `write_culvert_to_file(hy8_file)`: eleven writes, the barrel's station and spacing
      stamped, and always `(True, "")`. */
  method WriteCulvertToFile(b: RunnerBarrel, file: seq<string>, repr: real -> string)
    returns (written: RunnerBarrel, result: bool, messages: string, out: seq<string>)
    ensures out == file + CulvertWrites(b, repr)
    ensures written == Written(b)
    ensures result && messages == ""
  {
    messages, result := "", true;
    out := file + [Line("STARTCULVERT", "    \"" + b.name + "\"")];
    var shape := 1;
    var material := 1;
    if b.material == SteelMaterial {
      material := 2;
    }
    if b.shape == BoxShape {
      shape := 2;
      material := 1;
    }
    var nTop, nBottom := 0.012, 0.012;
    if material == 2 {
      nTop, nBottom := 0.024, 0.024;
    }
    assert shape == ShapeCode(b) && material == MaterialCode(b) && nTop == nBottom == ManningN(b);
    out := out + [Line("CULVERTSHAPE", "    " + IntToString(shape))];
    out := out + [Line("CULVERTMATERIAL", " " + IntToString(material))];
    out := out + [Line("BARRELDATA", "  " + repr(b.span) + " " + repr(b.rise) + " " + repr(nTop) + " " + repr(nBottom))];
    out := out + [Line("EMBANKMENTTYPE", " 2")];
    out := out + [Line("NUMBEROFBARRELS", " " + IntToString(b.numberOfBarrels))];
    out := out + [Line("INVERTDATA", " " + repr(b.inletInvertStation) + " " + repr(b.inletInvertElevation) + " "
                                     + repr(b.outletInvertStation) + " " + repr(b.outletInvertElevation))];
    written := b.(roadwayStation := 0.0, barrelSpacing := 1.5 * b.span);
    out := out + [Line("ROADCULVSTATION", " " + repr(written.roadwayStation))];
    out := out + [Line("BARRELSPACING", " " + repr(written.barrelSpacing))];
    out := out + [Line("STARTCULVNOTES", " \"" + b.notes + "\"\nENDCULVNOTES")];
    out := out + [Line("ENDCULVERT", "")];
  }
}
