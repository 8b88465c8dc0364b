/**
 * The arcade name editor shown after a high score: three slots, each
 * holding one character of a 37-character alphabet, a cursor that moves
 * between the slots, and a submit key that fixes the name.
 */
module NameEntry {

  /** The alphabet a slot cycles through: A-Z, 0-9 and space. */
  const Characters: string := "ABCDEFGHIJKLMNOPQRSTUVWXYZ0123456789 "

  /** The number of slots. */
  const Slots: int := 3

  /**
   * Decoded key presses: the arrow keys and W/S/A/D give the four
   * directions, space and return submit, and every other key is ignored.
   */
  datatype Key = Up | Down | Left | Right | Submit | Backspace | Other

  /** An index stepped past either end of the alphabet jumps to the other end. */
  function Wrap(i: int): int {
    if i >= |Characters| then 0 else if i < 0 then |Characters| - 1 else i
  }

  /** `max(0, min(2, p))`. */
  function Clamp(p: int): int {
    if p > Slots - 1 then Slots - 1 else if p < 0 then 0 else p
  }

  /** The editor's state that the keys change. */
  datatype Editor = Editor(indices: seq<int>, position: int, complete: bool, submitted: string)

  /** Three slots, each on a character of the alphabet, and the cursor on one of them. */
  predicate Coherent(e: Editor) {
    && |e.indices| == Slots
    && 0 <= e.position < Slots
    && forall i :: 0 <= i < |e.indices| ==> 0 <= e.indices[i] < |Characters|
  }

  /** The characters the slots show. */
  function NameOf(indices: seq<int>): (r: string)
    requires forall i :: 0 <= i < |indices| ==> 0 <= indices[i] < |Characters|
    ensures |r| == |indices|
    ensures forall i :: 0 <= i < |r| ==> r[i] in Characters
  {
    seq(|indices|, i requires 0 <= i < |indices| => Characters[indices[i]])
  }

  /** A fresh editor: every slot on 'A', the cursor on the first slot, nothing submitted. */
  const Initial: Editor := Editor([0, 0, 0], 0, false, "")

  /** `_change_character`: step the slot under the cursor, wrapping at both ends. */
  function CharacterChanged(e: Editor, direction: int): Editor
    requires Coherent(e)
  {
    e.(indices := e.indices[e.position := Wrap(e.indices[e.position] + direction)])
  }

  /** `_move_position`: move the cursor, clamped to the slots. */
  function PositionMoved(e: Editor, direction: int): Editor {
    e.(position := Clamp(e.position + direction))
  }

  /** `_submit_name`: the shown name becomes the submitted one. */
  function NameSubmitted(e: Editor): Editor
    requires Coherent(e)
  {
    e.(submitted := NameOf(e.indices), complete := true)
  }

  /** One key of the input loop in `update`. */
  function Press(e: Editor, k: Key): Editor
    requires Coherent(e)
  {
    match k
    case Up => CharacterChanged(e, 1)
    case Down => CharacterChanged(e, -1)
    case Left => PositionMoved(e, -1)
    case Right => PositionMoved(e, 1)
    case Submit => NameSubmitted(e)
    case Backspace => PositionMoved(e, -1)
    case Other => e
  }

  /** Every key keeps the editor coherent. */
  lemma PressKeepsCoherent(e: Editor, k: Key)
    requires Coherent(e)
    ensures Coherent(Press(e, k))
  {
  }

  /** The keys of one frame, in order. */
  function PressAll(e: Editor, keys: seq<Key>): (r: Editor)
    requires Coherent(e)
    ensures Coherent(r)
    decreases |keys|
  {
    if keys == [] then e
    else
      var before := PressAll(e, keys[..|keys| - 1]);
      PressKeepsCoherent(before, keys[|keys| - 1]);
      Press(before, keys[|keys| - 1])
  }

  /** A fresh editor is coherent and shows "AAA". */
  lemma InitialShowsAAA()
    ensures Coherent(Initial) && NameOf(Initial.indices) == "AAA"
  {
  }

  /**
   * Up and down keep the slot on the alphabet, wrapping from the last
   * character to the first and back, and change no other slot.
   */
  lemma ChangeCharacterWraps(e: Editor, direction: int)
    requires Coherent(e) && (direction == 1 || direction == -1)
    ensures var r := CharacterChanged(e, direction);
      && Coherent(r)
      && r.position == e.position
      && (forall i :: 0 <= i < Slots && i != e.position ==> r.indices[i] == e.indices[i])
      && (direction == 1 && e.indices[e.position] == |Characters| - 1 ==> r.indices[e.position] == 0)
      && (direction == -1 && e.indices[e.position] == 0 ==> r.indices[e.position] == |Characters| - 1)
      && (r.indices[e.position] - e.indices[e.position]) % |Characters| == direction % |Characters|
  {
  }

  /** Up then down, or down then up, leaves the editor as it was, even across the wrap. */
  lemma UpDownRestores(e: Editor)
    requires Coherent(e)
    ensures Press(Press(e, Up), Down) == e
    ensures Press(Press(e, Down), Up) == e
  {
    var p := e.position;
    assert e.indices[p := e.indices[p]] == e.indices;
  }

  /**
   * The cursor never leaves the slots, moves by the step when it can, and
   * otherwise stops at the nearer end; backspace moves it like the left key.
   */
  lemma MovePositionClamps(e: Editor, direction: int)
    requires Coherent(e)
    ensures 0 <= PositionMoved(e, direction).position < Slots
    ensures 0 <= e.position + direction < Slots ==> PositionMoved(e, direction).position == e.position + direction
    ensures e.position + direction < 0 ==> PositionMoved(e, direction).position == 0
    ensures e.position + direction >= Slots ==> PositionMoved(e, direction).position == Slots - 1
    ensures Press(e, Backspace) == Press(e, Left)
  {
  }

  /** Submitting fixes a three-character name drawn from the alphabet and leaves the slots as they are. */
  lemma SubmitFixesName(e: Editor)
    requires Coherent(e)
    ensures var r := NameSubmitted(e);
      && r.complete && |r.submitted| == Slots && r.indices == e.indices
      && forall i :: 0 <= i < Slots ==> r.submitted[i] == Characters[e.indices[i]]
  {
  }

  class NameEntryScene {
    const score: int
    const passengers: int
    const rank: int
    /** `name`: the character each slot shows. */
    const name: array<char>
    /** `char_indices`: each slot's index into the alphabet. */
    const charIndices: array<int>
    var currentPosition: int
    var complete: bool
    var submittedName: string

    /** The slots agree with their indices, and the cursor is on a slot. */
    predicate Valid()
      reads this, name, charIndices
    {
      && name.Length == Slots && charIndices.Length == Slots
      && Coherent(State())
      && forall i :: 0 <= i < Slots ==> name[i] == Characters[charIndices[i]]
    }

    function State(): Editor
      reads this, charIndices
    {
      Editor(charIndices[..], currentPosition, complete, submittedName)
    }

    /** `__init__`: "AAA", the cursor on the first slot, nothing submitted. */
    constructor (score: int, passengers: int, rank: int)
      ensures Valid() && State() == Initial && name[..] == "AAA"
      ensures this.score == score && this.passengers == passengers && this.rank == rank
      ensures fresh(name) && fresh(charIndices)
    {
      this.score := score;
      this.passengers := passengers;
      this.rank := rank;
      name := new char[3]['A', 'A', 'A'];
      charIndices := new int[3][0, 0, 0];
      currentPosition := 0;
      complete := false;
      submittedName := "";
    }

    /** `_change_character`: the slot under the cursor and its character step together. */
    method ChangeCharacter(direction: int)
      requires Valid()
      modifies name, charIndices
      ensures Valid()
      ensures State() == CharacterChanged(old(State()), direction)
      ensures name[..] == old(name[..])[currentPosition := Characters[charIndices[currentPosition]]]
    {
      var p := currentPosition;
      charIndices[p] := charIndices[p] + direction;
      if charIndices[p] >= |Characters| {
        charIndices[p] := 0;
      } else if charIndices[p] < 0 {
        charIndices[p] := |Characters| - 1;
      }
      name[p] := Characters[charIndices[p]];
    }

    /** `_move_position`. */
    method MovePosition(direction: int)
      requires Valid()
      modifies this`currentPosition
      ensures Valid()
      ensures State() == PositionMoved(old(State()), direction)
    {
      currentPosition := currentPosition + direction;
      if currentPosition > Slots - 1 {
        currentPosition := Slots - 1;
      }
      if currentPosition < 0 {
        currentPosition := 0;
      }
    }

    /** `_submit_name`: the joined slots become the submitted name. */
    method SubmitName()
      requires Valid()
      modifies this`submittedName, this`complete
      ensures Valid()
      ensures State() == NameSubmitted(old(State()))
      ensures submittedName == name[..]
    {
      submittedName := name[..];
      complete := true;
    }

    /** One key of the dispatch in `update`. */
    method PressKey(k: Key)
      requires Valid()
      modifies this`currentPosition, this`submittedName, this`complete, name, charIndices
      ensures Valid()
      ensures State() == Press(old(State()), k)
    {
      match k {
        case Up => ChangeCharacter(1);
        case Down => ChangeCharacter(-1);
        case Left => MovePosition(-1);
        case Right => MovePosition(1);
        case Submit => SubmitName();
        case Backspace => MovePosition(-1);
        case Other =>
      }
    }

    /** The key dispatch of `update`: each key of the frame, in order. */
    method Update(keys: seq<Key>)
      requires Valid()
      modifies this`currentPosition, this`submittedName, this`complete, name, charIndices
      ensures Valid()
      ensures State() == PressAll(old(State()), keys)
    {
      var i := 0;
      while i < |keys|
        invariant 0 <= i <= |keys|
        invariant Valid()
        invariant State() == PressAll(old(State()), keys[..i])
      {
        assert keys[..i + 1][..i] == keys[..i];
        PressKey(keys[i]);
        i := i + 1;
      }
      assert keys[..|keys|] == keys;
    }
  }
}
