/** The difficulty badge colour of
    frontend/src/components/problem-description.tsx. */
module ProblemDescription {
  import opened JsText

  const Easy := "bg-green-500"
  const Medium := "bg-yellow-500"
  const Hard := "bg-red-500"
  const Unknown := "bg-gray-500"

  /** `getDifficultyColor`: the switch on the lower-cased difficulty. */
  function DifficultyColor(difficulty: string): (colour: string)
    ensures colour in {Easy, Medium, Hard, Unknown}
  {
    match ToLower(difficulty)
    case "easy" => Easy
    case "medium" => Medium
    case "hard" => Hard
    case _ => Unknown
  }

  /** Two spellings are the same ignoring ASCII case. */
  predicate SameIgnoringCase(a: string, b: string) {
    |a| == |b| && forall i :: 0 <= i < |a| ==> LowerChar(a[i]) == LowerChar(b[i])
  }

  lemma ToLowerEqual(a: string, b: string)
    ensures ToLower(a) == ToLower(b) <==> SameIgnoringCase(a, b)
  {
    if ToLower(a) == ToLower(b) {
      assert |a| == |ToLower(a)| == |ToLower(b)| == |b|;
      forall i | 0 <= i < |a|
        ensures LowerChar(a[i]) == LowerChar(b[i])
      {
        assert ToLower(a)[i] == LowerChar(a[i]);
        assert ToLower(b)[i] == LowerChar(b[i]);
      }
    }
  }

  /** Each colour is chosen exactly by the spellings of its word in any
      case, and every other difficulty gets the grey badge. */
  lemma ColourByWord(d: string)
    ensures DifficultyColor(d) == Easy <==> SameIgnoringCase(d, "easy")
    ensures DifficultyColor(d) == Medium <==> SameIgnoringCase(d, "medium")
    ensures DifficultyColor(d) == Hard <==> SameIgnoringCase(d, "hard")
    ensures DifficultyColor(d) == Unknown <==>
              !SameIgnoringCase(d, "easy") && !SameIgnoringCase(d, "medium") && !SameIgnoringCase(d, "hard")
  {
    ToLowerEqual(d, "easy");
    ToLowerEqual(d, "medium");
    ToLowerEqual(d, "hard");
    assert ToLower("easy") == "easy";
    assert ToLower("medium") == "medium";
    assert ToLower("hard") == "hard";
  }

  /** Changing the case of a difficulty never changes its colour. */
  lemma CaseInsensitive(a: string, b: string)
    requires SameIgnoringCase(a, b)
    ensures DifficultyColor(a) == DifficultyColor(b)
  {
    ToLowerEqual(a, b);
  }

  /** The colours of the three difficulties are distinct. */
  lemma ColoursDistinct()
    ensures DifficultyColor("Easy") == Easy
    ensures DifficultyColor("Medium") == Medium
    ensures DifficultyColor("HARD") == Hard
    ensures |{Easy, Medium, Hard, Unknown}| == 4
  {
    assert ToLower("Easy") == "easy";
    assert ToLower("Medium") == "medium";
    assert ToLower("HARD") == "hard";
  }
}
