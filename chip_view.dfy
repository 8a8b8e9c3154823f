/**
 * The data effects of the chip editor's tool buttons (UI/ChipView.py):
 * adding a valve with the next free solenoid number, an annotation, an
 * image and a program to the open chip, which is passed in explicitly.
 */
module ChipView {
  import opened Common
  import opened Chip

  // ---------------------------------------------------------------- str() of a non-negative int

  function DigitChar(d: nat): (c: char)
    requires d < 10
    ensures '0' <= c <= '9' && c as int - '0' as int == d
  {
    (d + '0' as int) as char
  }

  predicate AllDigits(s: string) {
    forall i :: 0 <= i < |s| ==> '0' <= s[i] <= '9'
  }

  /** Python's `str(n)` for n >= 0: decimal digits, no leading zero. */
  function NatToString(n: nat): (s: string)
    ensures |s| >= 1 && AllDigits(s)
    ensures s[0] == '0' ==> n == 0
  {
    if n < 10 then [DigitChar(n)] else NatToString(n / 10) + [DigitChar(n % 10)]
  }

  /** The value of a string of decimal digits. */
  function ParseNat(s: string): nat
    requires AllDigits(s)
  {
    if s == [] then 0 else ParseNat(s[..|s| - 1]) * 10 + (s[|s| - 1] as int - '0' as int)
  }

  lemma {:induction false} ParseNatToString(n: nat)
    ensures ParseNat(NatToString(n)) == n
  {
    if n >= 10 {
      var s := NatToString(n);
      ParseNatToString(n / 10);
      assert s[..|s| - 1] == NatToString(n / 10);
    }
  }

  /** Distinct numbers print differently. */
  lemma NatToStringInjective(m: nat, n: nat)
    requires NatToString(m) == NatToString(n)
    ensures m == n
  {
    ParseNatToString(m);
    ParseNatToString(n);
  }

  // ---------------------------------------------------------------- valves

  /** `max([v.solenoidNumber for v in valves] + [-1])` */
  function HighestValveNumber(valves: seq<Valve>): (h: int)
    ensures h >= -1
    ensures forall i :: 0 <= i < |valves| ==> valves[i].solenoidNumber <= h
    ensures h == -1 || exists i :: 0 <= i < |valves| && valves[i].solenoidNumber == h
  {
    if valves == [] then -1
    else
      var rest := HighestValveNumber(valves[..|valves| - 1]);
      var last := valves[|valves| - 1].solenoidNumber;
      if last > rest then last else rest
  }

  /** The number a new valve gets: one more than the highest in use, 0 on an empty chip. */
  function NextValveNumber(valves: seq<Valve>): (n: nat)
    ensures forall i :: 0 <= i < |valves| ==> valves[i].solenoidNumber < n
    ensures valves == [] ==> n == 0
    ensures n == 0 || exists i :: 0 <= i < |valves| && valves[i].solenoidNumber == n - 1
  {
    HighestValveNumber(valves) + 1
  }

  /** Valves with non-negative numbers: the next number is the least one above them all. */
  lemma NextValveNumberLeast(valves: seq<Valve>, m: int)
    requires 0 <= m && forall i :: 0 <= i < |valves| ==> 0 <= valves[i].solenoidNumber < m
    ensures NextValveNumber(valves) <= m
  {
  }

  function NewValve(n: nat): (v: Valve)
    ensures v.solenoidNumber == n && v.name == "Valve " + NatToString(n)
    ensures v.(name := "", solenoidNumber := 0) == DefaultValve
  {
    DefaultValve.(name := "Valve " + NatToString(n), solenoidNumber := n)
  }

  /** Each valve the button adds has a name no earlier button-made valve has. */
  lemma NewValveNamesDistinct(m: nat, n: nat)
    requires m != n
    ensures NewValve(m).name != NewValve(n).name
  {
    var a, b := NewValve(m).name, NewValve(n).name;
    if a == b {
      assert a[6..] == NatToString(m) && b[6..] == NatToString(n);
      NatToStringInjective(m, n);
    }
  }

  method AddNewValve(chip: Chip)
    modifies chip`valves
    ensures chip.valves == old(chip.valves) + [NewValve(NextValveNumber(old(chip.valves)))]
  {
    var highestValveNumber := HighestValveNumber(chip.valves);
    var newValve := DefaultValve;
    newValve := newValve.(name := "Valve " + NatToString(highestValveNumber + 1));
    newValve := newValve.(solenoidNumber := highestValveNumber + 1);
    chip.valves := chip.valves + [newValve];
  }

  // ---------------------------------------------------------------- annotations, images, programs

  const NewTextAnnotation := DefaultText.(text := "New text")

  method AddNewText(chip: Chip)
    modifies chip`text
    ensures chip.text == old(chip.text) + [NewTextAnnotation]
    ensures chip.text[|chip.text| - 1].text == "New text"
  {
    var newText := DefaultText;
    newText := newText.(text := "New text");
    chip.text := chip.text + [newText];
  }

  /** Adds the image the file dialog chose; a cancelled dialog (empty path) adds nothing. */
  method AddNewImage(chip: Chip, path: string) returns (added: Option<Image>)
    modifies chip`images
    ensures path == "" ==> added == None && chip.images == old(chip.images)
    ensures path != "" ==> added.Some? && fresh(added.value)
    ensures path != "" ==> chip.images == old(chip.images) + [added.value]
    ensures path != "" ==> added.value.path == path && added.value.rect == [0, 0, 0, 0]
  {
    added := None;
    if path != "" {
      var newImage := new Image(path);
      chip.images := chip.images + [newImage];
      added := Some(newImage);
    }
  }

  /** Adds a program running `script`, named after it. */
  method AddProgram(chip: Chip, script: Script) returns (newProgram: Program)
    requires script.Valid()
    modifies chip`programs
    ensures fresh(newProgram)
    ensures chip.programs == old(chip.programs) + [newProgram]
    ensures newProgram.script == script && newProgram.name == script.Name()
    ensures newProgram.position == [0.0, 0.0] && newProgram.scale == 1.0 && !newProgram.hideMessages
    ensures newProgram.parameterValues == map[] && newProgram.parameterVisibility == map[]
  {
    newProgram := new Program(script);
    newProgram.name := script.Name();
    chip.programs := chip.programs + [newProgram];
  }
}
