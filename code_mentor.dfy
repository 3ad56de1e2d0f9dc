/**
 * CodeMentor (project/app.py): the code to submit comes from an uploaded
 * file or from the pasted text area, under two size ceilings; five
 * independent buttons then each send that code to one adapter and offer
 * the answer for download.
 *
 * The uploaded file is given already decoded (`Some(content)`, or `None`
 * when nothing is uploaded). The five adapters are one parameter
 * `adapter: (Action, string) -> string`.
 */
module CodeMentor {
  import opened Wrappers
  import opened PyText

  /** The ceilings announced by the two input widgets. */
  const MaxLines := 500
  const MaxWords := 1000

  /** Lines 43-58: the code the buttons work on, or `None`. An uploaded
      file wins over the text area, even when the file is refused; the text
      area counts only when it is not empty. */
  function SelectCode(file: Option<string>, pasted: string): (code: Option<string>)
    ensures file.Some? ==> (code.Some? <==> LineCount(file.value) <= MaxLines)
    ensures file.None? ==> (code.Some? <==> pasted != "" && WordCount(pasted) <= MaxWords)
    ensures code.Some? ==> code.value == if file.Some? then file.value else pasted
  {
    match file
    case Some(content) =>
      if LineCount(content) > MaxLines then None else Some(content)
    case None =>
      if pasted != "" then
        if WordCount(pasted) > MaxWords then None else Some(pasted)
      else
        None
  }

  /** When a file is uploaded the text area is never looked at. */
  lemma FileOverridesPaste(content: string, pasted1: string, pasted2: string)
    ensures SelectCode(Some(content), pasted1) == SelectCode(Some(content), pasted2)
    ensures SelectCode(Some(content), pasted1).Some? ==> SelectCode(Some(content), pasted1).value == content
  {
  }

  /** Python truthiness of `code`: `None` and `""` are false. */
  predicate Truthy(code: Option<string>) {
    code.Some? && code.value != ""
  }

  /** `n` copies of the one-letter string "x": used both as `n` lines and
      as `n` words. */
  function Xs(n: nat): (xs: seq<string>)
    ensures |xs| == n
    ensures forall k :: 0 <= k < n ==> xs[k] == "x"
  {
    seq(n, _ => "x")
  }

  lemma XsAsLinesCount(n: nat)
    ensures LineCount(Terminated(Xs(n))) == n
  {
    var lines := Xs(n);
    forall k | 0 <= k < |lines| ensures NoLineBreak(lines[k]) {
      assert lines[k] == "x";
    }
    SplitTerminated(lines);
  }

  /** The line ceiling is inclusive: a file of 500 lines is accepted, a
      file of 501 lines is refused, whatever is pasted. */
  lemma LineCeilingBoundary(pasted: string)
    ensures SelectCode(Some(Terminated(Xs(500))), pasted) == Some(Terminated(Xs(500)))
    ensures SelectCode(Some(Terminated(Xs(501))), pasted) == None
  {
    XsAsLinesCount(500);
    XsAsLinesCount(501);
  }

  lemma XsAsWordsCount(n: nat)
    ensures WordCount(Spaced(Xs(n))) == n
  {
    var words := Xs(n);
    forall k | 0 <= k < |words| ensures words[k] != [] && NoSpace(words[k]) {
      assert words[k] == "x";
    }
    SplitSpaced(words);
  }

  /** The word ceiling is inclusive: 1000 pasted words are accepted, 1001
      are refused. */
  lemma WordCeilingBoundary()
    ensures SelectCode(None, Spaced(Xs(1000))) == Some(Spaced(Xs(1000)))
    ensures SelectCode(None, Spaced(Xs(1001))) == None
  {
    XsAsWordsCount(1000);
    XsAsWordsCount(1001);
    assert Spaced(Xs(1000)) != [] by {
      assert Xs(1000) != [];
    }
    assert Spaced(Xs(1001)) != [] by {
      assert Xs(1001) != [];
    }
  }

  /** Nothing uploaded and nothing pasted: no code. Pasted whitespace is
      not empty, has no words, and so is accepted and truthy. */
  lemma EmptyAndBlankInput(pasted: string)
    ensures SelectCode(None, "") == None
    ensures pasted != "" && AllSpace(pasted) ==> SelectCode(None, pasted) == Some(pasted) && Truthy(Some(pasted))
  {
    NoWordsIffAllSpace(pasted);
  }

  /** An empty uploaded file is accepted as "", which no button acts on. */
  lemma EmptyFileAcceptedButInert(pasted: string)
    ensures SelectCode(Some(""), pasted) == Some("")
    ensures !Truthy(SelectCode(Some(""), pasted))
  {
    assert SplitLines("") == [];
  }

  // ---------------------------------------------------------------------
  // The five buttons
  // ---------------------------------------------------------------------

  datatype Action = Review | Refactor | Feedback | BestPractices | RemoveErrors

  /** The name of the download file each button offers. */
  function FileName(a: Action): string {
    match a
    case Review => "code_review.txt"
    case Refactor => "refactored_code.txt"
    case Feedback => "code_feedback.txt"
    case BestPractices => "best_practices.txt"
    case RemoveErrors => "error_removal_suggestions.txt"
  }

  /** One adapter call: which adapter, on what code, and the download it
      offers (its data and its file name). */
  datatype Offer = Offer(action: Action, code: string, data: string, fileName: string)

  /** `[a]` when button `a` was pressed, `[]` otherwise. */
  function Part(a: Action, pressed: set<Action>): seq<Action> {
    if a in pressed then [a] else []
  }

  /** The pressed buttons, in the order the page lays them out (lines 61,
      78, 94, 113, 136). */
  function PressedInOrder(pressed: set<Action>): seq<Action> {
    Part(Review, pressed) + Part(Refactor, pressed) + Part(Feedback, pressed)
    + Part(BestPractices, pressed) + Part(RemoveErrors, pressed)
  }

  /** Each pressed button is in the order exactly once, an unpressed one
      never. */
  lemma EachPressedOnce(pressed: set<Action>)
    ensures forall a :: a in PressedInOrder(pressed) <==> a in pressed
    ensures forall a :: multiset(PressedInOrder(pressed))[a] == if a in pressed then 1 else 0
  {
    var p1, p2, p3 := Part(Review, pressed), Part(Refactor, pressed), Part(Feedback, pressed);
    var p4, p5 := Part(BestPractices, pressed), Part(RemoveErrors, pressed);
    assert multiset(PressedInOrder(pressed))
        == multiset(p1) + multiset(p2) + multiset(p3) + multiset(p4) + multiset(p5);
    forall a ensures multiset(PressedInOrder(pressed))[a] == if a in pressed then 1 else 0 {
      PartCount(Review, pressed, a);
      PartCount(Refactor, pressed, a);
      PartCount(Feedback, pressed, a);
      PartCount(BestPractices, pressed, a);
      PartCount(RemoveErrors, pressed, a);
    }
  }

  lemma PartCount(b: Action, pressed: set<Action>, a: Action)
    ensures multiset(Part(b, pressed))[a] == if a == b && a in pressed then 1 else 0
  {
  }

  /** What pressing `a` offers for download when the code is `code`. */
  function MakeOffer(a: Action, code: string, adapter: (Action, string) -> string): Offer {
    Offer(a, code, adapter(a, code), FileName(a))
  }

  /** The downloads offered for the buttons `actions`, in order. */
  function OffersFor(actions: seq<Action>, code: string, adapter: (Action, string) -> string): seq<Offer> {
    if actions == [] then []
    else [MakeOffer(actions[0], code, adapter)] + OffersFor(actions[1..], code, adapter)
  }

  lemma {:induction false} OffersForAppend(xs: seq<Action>, ys: seq<Action>, code: string, adapter: (Action, string) -> string)
    ensures OffersFor(xs + ys, code, adapter) == OffersFor(xs, code, adapter) + OffersFor(ys, code, adapter)
  {
    if xs == [] {
      assert xs + ys == ys;
    } else {
      assert (xs + ys)[0] == xs[0];
      assert (xs + ys)[1..] == xs[1..] + ys;
      OffersForAppend(xs[1..], ys, code, adapter);
    }
  }

  /** The i-th offer comes from the i-th button: one adapter call per
      pressed button, on the same code. */
  lemma {:induction false} OffersForAt(actions: seq<Action>, code: string, adapter: (Action, string) -> string, i: nat)
    requires i < |actions|
    ensures |OffersFor(actions, code, adapter)| == |actions|
    ensures OffersFor(actions, code, adapter)[i] == MakeOffer(actions[i], code, adapter)
    decreases |actions|
  {
    if i == 0 {
      OffersForLength(actions, code, adapter);
    } else {
      OffersForAt(actions[1..], code, adapter, i - 1);
    }
  }

  lemma {:induction false} OffersForLength(actions: seq<Action>, code: string, adapter: (Action, string) -> string)
    ensures |OffersFor(actions, code, adapter)| == |actions|
  {
    if actions != [] {
      OffersForLength(actions[1..], code, adapter);
    }
  }

  /** Lines 61-156: every pressed button calls its adapter once on the
      selected code and offers the answer under its own file name, in page
      order; nothing is called when the code is `None` or "". */
  function Dispatch(code: Option<string>, pressed: set<Action>, adapter: (Action, string) -> string): seq<Offer> {
    if Truthy(code) then OffersFor(PressedInOrder(pressed), code.value, adapter) else []
  }

  lemma DispatchMeaning(code: Option<string>, pressed: set<Action>, adapter: (Action, string) -> string)
    ensures var offers := Dispatch(code, pressed, adapter);
            && (!Truthy(code) ==> offers == [])
            && (Truthy(code) ==> |offers| == |PressedInOrder(pressed)|)
            && forall i :: 0 <= i < |offers| ==>
                 && offers[i].action == PressedInOrder(pressed)[i]
                 && offers[i].code == code.value
                 && offers[i].data == adapter(offers[i].action, code.value)
                 && offers[i].fileName == FileName(offers[i].action)
  {
    if Truthy(code) {
      var order := PressedInOrder(pressed);
      OffersForLength(order, code.value, adapter);
      forall i | 0 <= i < |order| ensures Dispatch(code, pressed, adapter)[i] == MakeOffer(order[i], code.value, adapter) {
        OffersForAt(order, code.value, adapter, i);
      }
    }
  }

  /** One button block: when `a` is pressed and the code is truthy, call
      the adapter of `a` and offer its answer. */
  method Press(a: Action, pressed: set<Action>, code: Option<string>, adapter: (Action, string) -> string,
               before: seq<Offer>) returns (after: seq<Offer>)
    ensures after == before + if Truthy(code) then OffersFor(Part(a, pressed), code.value, adapter) else []
  {
    after := before;
    if a in pressed && Truthy(code) {
      var answer := adapter(a, code.value);
      after := after + [Offer(a, code.value, answer, FileName(a))];
    }
  }

  /** Lines 61-156, the five button blocks one after the other. */
  method RunButtons(code: Option<string>, pressed: set<Action>, adapter: (Action, string) -> string)
    returns (offers: seq<Offer>)
    ensures offers == Dispatch(code, pressed, adapter)
  {
    offers := Press(Review, pressed, code, adapter, []);
    offers := Press(Refactor, pressed, code, adapter, offers);
    offers := Press(Feedback, pressed, code, adapter, offers);
    offers := Press(BestPractices, pressed, code, adapter, offers);
    offers := Press(RemoveErrors, pressed, code, adapter, offers);
    DispatchByButton(code, pressed, adapter);
  }

  /** `Dispatch` is the offers of the five buttons, one after the other. */
  lemma DispatchByButton(code: Option<string>, pressed: set<Action>, adapter: (Action, string) -> string)
    ensures Truthy(code) ==>
              Dispatch(code, pressed, adapter)
              == OffersFor(Part(Review, pressed), code.value, adapter)
                 + OffersFor(Part(Refactor, pressed), code.value, adapter)
                 + OffersFor(Part(Feedback, pressed), code.value, adapter)
                 + OffersFor(Part(BestPractices, pressed), code.value, adapter)
                 + OffersFor(Part(RemoveErrors, pressed), code.value, adapter)
  {
    if Truthy(code) {
      var c := code.value;
      var p1, p2, p3 := Part(Review, pressed), Part(Refactor, pressed), Part(Feedback, pressed);
      var p4, p5 := Part(BestPractices, pressed), Part(RemoveErrors, pressed);
      OffersForAppend(p1, p2, c, adapter);
      OffersForAppend(p1 + p2, p3, c, adapter);
      OffersForAppend(p1 + p2 + p3, p4, c, adapter);
      OffersForAppend(p1 + p2 + p3 + p4, p5, c, adapter);
    }
  }

  /** The whole page for one rerun: select the code, then run the buttons.
      Every pressed button sends accepted, non-empty code to its adapter;
      no refused or missing input ever reaches an adapter. */
  method Page(file: Option<string>, pasted: string, pressed: set<Action>, adapter: (Action, string) -> string)
    returns (offers: seq<Offer>)
    ensures offers == Dispatch(SelectCode(file, pasted), pressed, adapter)
    ensures Truthy(SelectCode(file, pasted)) ==> |offers| == |PressedInOrder(pressed)|
    ensures offers != [] ==> Truthy(SelectCode(file, pasted))
    ensures file.Some? && LineCount(file.value) > MaxLines ==> offers == []
    ensures file.None? && WordCount(pasted) > MaxWords ==> offers == []
    ensures forall i :: 0 <= i < |offers| ==>
              offers[i].code == (if file.Some? then file.value else pasted)
              && offers[i].data == adapter(offers[i].action, offers[i].code)
  {
    var code := SelectCode(file, pasted);
    offers := RunButtons(code, pressed, adapter);
    DispatchMeaning(code, pressed, adapter);
  }
}
