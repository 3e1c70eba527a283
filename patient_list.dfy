/**
 * The two computations in the patient card grid (src/components/PatientList.tsx):
 * the avatar initials derived from a patient's full name and the avatar
 * gradient chosen by the card's position.
 */
module PatientList {
  import opened Wrappers
  import opened JsStrings

  // ---------------------------------------------------------------------
  // Initials: `fullName.split(' ').map(n => n[0]).join('').toUpperCase()`
  // ---------------------------------------------------------------------

  /** `n[0]`: the first character, or `undefined` for the empty segment. */
  function FirstChar(segment: string): (r: Option<char>)
    ensures r.Some? <==> |segment| > 0
    ensures r.Some? ==> segment == [r.value] + segment[1..]
  {
    if segment == "" then None else Some(segment[0])
  }

  /** How `Array.prototype.join` renders one element: `undefined` as `""`. */
  function Rendered(x: Option<char>): (r: string)
    ensures x.None? ==> r == ""
    ensures x.Some? ==> |r| == 1 && r[0] == x.value
  {
    match x
    case None => ""
    case Some(c) => [c]
  }

  /** `segments.map(n => n[0])`, each element already in its joined form. */
  function RenderedHeads(segments: seq<string>): (r: seq<string>)
    ensures |r| == |segments|
    ensures forall i :: 0 <= i < |segments| ==> r[i] == Rendered(FirstChar(segments[i]))
  {
    if segments == [] then [] else [Rendered(FirstChar(segments[0]))] + RenderedHeads(segments[1..])
  }

  /** The avatar text of a patient card: capitals only, at most one per segment. */
  function Initials(fullName: string): (r: string)
    ensures forall i :: 0 <= i < |r| ==> !('a' <= r[i] <= 'z')
    ensures |r| <= |Split(fullName, ' ')|
  {
    JoinedHeads(Split(fullName, ' '));
    NonEmptyShorter(Split(fullName, ' '));
    ToUpperCase(Join(RenderedHeads(Split(fullName, ' ')), ""))
  }

  /** The segments that contribute to the initials: the non-empty ones, in order. */
  function NonEmpty(segments: seq<string>): (r: seq<string>)
    ensures forall i :: 0 <= i < |r| ==> r[i] != ""
  {
    if segments == [] then []
    else if segments[0] == "" then NonEmpty(segments[1..])
    else [segments[0]] + NonEmpty(segments[1..])
  }

  /** Filtering keeps at most as many segments as there were. */
  lemma {:induction false} NonEmptyShorter(segments: seq<string>)
    ensures |NonEmpty(segments)| <= |segments|
  {
    if segments != [] {
      NonEmptyShorter(segments[1..]);
    }
  }

  /** The words of a name: the non-empty segments of its split on `' '`. */
  function Words(fullName: string): seq<string>
  {
    NonEmpty(Split(fullName, ' '))
  }

  /** Joined heads of some segments are the first characters of the non-empty ones. */
  lemma {:induction false} JoinedHeads(segments: seq<string>)
    ensures |Join(RenderedHeads(segments), "")| == |NonEmpty(segments)|
    ensures forall k :: 0 <= k < |NonEmpty(segments)| ==>
      Join(RenderedHeads(segments), "")[k] == NonEmpty(segments)[k][0]
    decreases |segments|
  {
    if segments != [] {
      var rest := segments[1..];
      JoinedHeads(rest);
      var heads := RenderedHeads(segments);
      assert heads == [Rendered(FirstChar(segments[0]))] + RenderedHeads(rest);
      JoinEmptyCons(Rendered(FirstChar(segments[0])), RenderedHeads(rest));
    }
  }

  /**
   * One initial per word, in order: the k-th character of the initials is the
   * upper-cased first character of the k-th word.
   */
  lemma InitialsAreFirstLetters(fullName: string)
    ensures |Initials(fullName)| == |Words(fullName)|
    ensures forall k :: 0 <= k < |Words(fullName)| ==>
      Initials(fullName)[k] == UpperChar(Words(fullName)[k][0])
  {
    JoinedHeads(Split(fullName, ' '));
  }

  /**
   * A name without a space (tabs and other whitespace do not separate words)
   * has at most one initial: none for the empty name, else its first character.
   */
  lemma InitialsWithoutSpace(fullName: string)
    requires ' ' !in fullName
    ensures Initials(fullName) == if fullName == "" then "" else [UpperChar(fullName[0])]
    ensures |Initials(fullName)| <= 1
  {
    SplitWithoutSep(fullName, ' ');
    assert RenderedHeads([fullName]) == [Rendered(FirstChar(fullName))];
  }

  /** `RenderedHeads` is a map, so it distributes over concatenation. */
  lemma RenderedHeadsAppend(xs: seq<string>, ys: seq<string>)
    ensures RenderedHeads(xs + ys) == RenderedHeads(xs) + RenderedHeads(ys)
  {
  }

  /**
   * A space contributes nothing of its own: the initials of `a + " " + b` are
   * those of `a` followed by those of `b`. So leading, trailing and repeated
   * spaces are ignored (take `a` or `b` empty); with `InitialsWithoutSpace`
   * this determines the initials of every name.
   */
  lemma InitialsAtSpace(a: string, b: string)
    ensures Initials(a + " " + b) == Initials(a) + Initials(b)
  {
    assert a + " " + b == a + [' '] + b;
    SplitAtSep(a, ' ', b);
    RenderedHeadsAppend(Split(a, ' '), Split(b, ' '));
    JoinEmptyAppend(RenderedHeads(Split(a, ' ')), RenderedHeads(Split(b, ' ')));
    UpperAppend(Join(RenderedHeads(Split(a, ' ')), ""), Join(RenderedHeads(Split(b, ' ')), ""));
  }

  // ---------------------------------------------------------------------
  // Avatar colour: `colors[index % colors.length]`
  // ---------------------------------------------------------------------

  /** The six avatar gradients, in the order the grid cycles through them. */
  const Gradients: seq<string> := [
    "from-blue-500 to-indigo-500",
    "from-purple-500 to-pink-500",
    "from-green-500 to-emerald-500",
    "from-orange-500 to-red-500",
    "from-teal-500 to-cyan-500",
    "from-pink-500 to-rose-500"
  ]

  /** The gradient of the card at position `index` is one of the six. */
  function ColorClass(index: nat): (c: string)
    ensures c in Gradients
  {
    Gradients[index % |Gradients|]
  }

  /** The colour sequence has period six. */
  lemma {:induction false} ColorPeriodic(index: nat, k: nat)
    ensures ColorClass(index + 6 * k) == ColorClass(index)
  {
    if k > 0 {
      ColorPeriodic(index, k - 1);
      assert index + 6 * k == (index + 6 * (k - 1)) + 6;
    }
  }

  /** Any six consecutive cards get six different gradients. */
  lemma ColorsDistinctWithinSix(i: nat, j: nat)
    requires i < j < i + 6
    ensures ColorClass(i) != ColorClass(j)
  {
  }
}
