/** Error trees: the shapes that fmt.Errorf("%w"), PermanentError and APIError build, and the
    errors.As searches that classify them (internal/workflow/step.go, internal/clients/vcd/errors.go). */
module Errors {
  import opened Wrappers
  import BodyText

  datatype Error =
    | RowNotFound
    | Plain(text: string)
    | Api(status: int, body: string, verb: string, path: string)
    | Permanent(cause: Error)
    | Wrap(before: string, inner: Error)
    | WrapBoth(before: string, first: Error, between: string, second: Error, after: string)

  function Digits(n: nat): string {
    var last := [(n % 10 + '0' as int) as char];
    if n < 10 then last else Digits(n / 10) + last
  }

  function Decimal(n: int): string {
    if n < 0 then "-" + Digits(-n) else Digits(n)
  }

  /** The message, as Error() renders it. */
  function Text(e: Error): string {
    match e
    case RowNotFound => "workflow state not found"
    case Plain(text) => text
    case Api(status, body, verb, path) =>
      "vcd: " + verb + " " + path + " returned " + Decimal(status) + ": " + BodyText.SummarizeBody(body)
    case Permanent(cause) => "permanent: " + Text(cause)
    case Wrap(before, inner) => before + Text(inner)
    case WrapBoth(before, first, between, second, after) =>
      before + Text(first) + between + Text(second) + after
  }

  // ---------- Searching ----------

  /** errors.As: a depth-first search that looks at a node before its children. */
  function As(e: Error, target: Error -> bool): Option<Error> {
    if target(e) then Some(e) else
    match e
    case Permanent(cause) => As(cause, target)
    case Wrap(_, inner) => As(inner, target)
    case WrapBoth(_, first, _, second, _) =>
      var found := As(first, target);
      if found.Some? then found else As(second, target)
    case _ => None
  }

  function FindApi(e: Error): Option<Error> {
    As(e, (x: Error) => x.Api?)
  }

  predicate IsPermanent(e: Error) {
    As(e, (x: Error) => x.Permanent?).Some?
  }

  /** errors.Is(err, ErrNotFound): the same search, by equality. */
  predicate IsRowNotFound(e: Error) {
    As(e, (x: Error) => x == RowNotFound).Some?
  }

  predicate RetryableStatus(status: int) {
    status == 429 || status == 502 || status == 503 || status == 504
  }

  predicate IsRetryable(e: Error) {
    match FindApi(e)
    case Some(Api(status, _, _, _)) => RetryableStatus(status)
    case _ => true
  }

  predicate IsNotFound(e: Error) {
    match FindApi(e)
    case Some(Api(status, _, _, _)) => status == 404
    case _ => false
  }

  // ---------- The search finds the first match in pre-order ----------

  /** Every error of the tree, a node before its children, left before right. */
  function Preorder(e: Error): seq<Error> {
    match e
    case Permanent(cause) => [e] + Preorder(cause)
    case Wrap(_, inner) => [e] + Preorder(inner)
    case WrapBoth(_, first, _, second, _) => [e] + Preorder(first) + Preorder(second)
    case _ => [e]
  }

  ghost predicate FirstMatch(nodes: seq<Error>, target: Error -> bool, k: nat) {
    k < |nodes| && target(nodes[k]) && forall j :: 0 <= j < k ==> !target(nodes[j])
  }

  lemma {:induction false} AsFindsFirstMatch(e: Error, target: Error -> bool)
    ensures match As(e, target)
            case None => forall x :: x in Preorder(e) ==> !target(x)
            case Some(found) => exists k: nat :: FirstMatch(Preorder(e), target, k) && Preorder(e)[k] == found
    decreases e, 0
  {
    var nodes := Preorder(e);
    if target(e) {
      assert FirstMatch(nodes, target, 0);
    } else {
      match e
      case Permanent(cause) =>
        assert nodes == [e] + Preorder(cause) + [];
        FirstMatchBehind([e], cause, [], target);
      case Wrap(_, inner) =>
        assert nodes == [e] + Preorder(inner) + [];
        FirstMatchBehind([e], inner, [], target);
      case WrapBoth(_, first, _, second, _) =>
        FirstMatchBehind([e], first, Preorder(second), target);
        if As(first, target).None? {
          assert nodes == [e] + Preorder(first) + Preorder(second) + [];
          FirstMatchBehind([e] + Preorder(first), second, [], target);
        }
      case _ =>
    }
  }

  lemma {:induction false} FirstMatchBehind(front: seq<Error>, e: Error, back: seq<Error>, target: Error -> bool)
    requires forall x :: x in front ==> !target(x)
    ensures match As(e, target)
            case None => forall x :: x in front + Preorder(e) ==> !target(x)
            case Some(found) =>
              var nodes := front + Preorder(e) + back;
              exists k: nat :: FirstMatch(nodes, target, k) && nodes[k] == found
    decreases e, 1
  {
    AsFindsFirstMatch(e, target);
    if As(e, target).Some? {
      var k: nat :| FirstMatch(Preorder(e), target, k) && Preorder(e)[k] == As(e, target).value;
      var nodes := front + Preorder(e) + back;
      assert forall j :: 0 <= j < |front| ==> nodes[j] in front;
      assert FirstMatch(nodes, target, |front| + k);
    }
  }

  lemma IsPermanentMeaning(e: Error)
    ensures IsPermanent(e) <==> exists x :: x in Preorder(e) && x.Permanent?
  {
    AsFindsFirstMatch(e, (x: Error) => x.Permanent?);
  }

  /** IsNotFound and IsRetryable look at the first API error in pre-order and at nothing else. */
  lemma ClassificationReadsFirstApiError(e: Error)
    ensures IsNotFound(e)
            <==> exists k: nat :: FirstMatch(Preorder(e), (x: Error) => x.Api?, k) && Preorder(e)[k].status == 404
    ensures !IsRetryable(e)
            <==> exists k: nat :: FirstMatch(Preorder(e), (x: Error) => x.Api?, k)
                               && Preorder(e)[k].status !in {429, 502, 503, 504}
  {
    AsFindsFirstMatch(e, (x: Error) => x.Api?);
  }

  /** A not-found value counts wherever it is in the tree, and nothing else does. */
  lemma IsRowNotFoundMeaning(e: Error)
    ensures IsRowNotFound(e) <==> RowNotFound in Preorder(e)
  {
    AsFindsFirstMatch(e, (x: Error) => x == RowNotFound);
  }

  // ---------- What an error reports ----------

  /** `e` came of `cause`: it holds it, and is classified like it. */
  ghost predicate Reports(e: Error, cause: Error) {
    && cause in Preorder(e)
    && FindApi(e) == FindApi(cause)
    && IsPermanent(e) == IsPermanent(cause)
  }

  lemma ReportsItself(e: Error)
    ensures Reports(e, e)
  {
    assert Preorder(e)[0] == e;
  }

  lemma WrapReports(before: string, e: Error, cause: Error)
    requires Reports(e, cause)
    ensures Reports(Wrap(before, e), cause)
  {
  }

  lemma ReportsClassify(e: Error, cause: Error)
    requires Reports(e, cause)
    ensures IsNotFound(e) == IsNotFound(cause) && IsRetryable(e) == IsRetryable(cause)
  {
  }

  // ---------- What a message shows ----------

  /** `part` stands somewhere in `s`. */
  ghost predicate Shows(s: string, part: string) {
    exists before: string, after: string :: s == before + part + after
  }

  lemma ShowsWithin(outer: string, before: string, inner: string, after: string, part: string)
    requires outer == before + inner + after && Shows(inner, part)
    ensures Shows(outer, part)
  {
    var a: string, b: string :| inner == a + part + b;
    assert outer == (before + a) + part + (b + after);
  }

  lemma ShowsOneOfTwo(before: string, first: string, between: string, second: string, after: string, part: string)
    requires Shows(first, part) || Shows(second, part)
    ensures Shows(before + first + between + second + after, part)
  {
    var text := before + first + between + second + after;
    if Shows(first, part) {
      assert text == before + first + (between + second + after);
      ShowsWithin(text, before, first, between + second + after, part);
    } else {
      ShowsWithin(text, before + first + between, second, after, part);
    }
  }

  lemma ShowsItself(s: string)
    ensures Shows(s, s)
  {
    assert s == "" + s + "";
  }

  /** The message of a tree shows the message of every error in it. */
  lemma {:induction false} TextShowsEveryCause(e: Error, cause: Error)
    requires cause in Preorder(e)
    ensures Shows(Text(e), Text(cause))
  {
    hide Shows, Decimal;
    if cause == e {
      ShowsItself(Text(e));
    } else {
      match e
      case Permanent(inner) =>
        TextShowsEveryCause(inner, cause);
        ShowsAtTheEnd("permanent: ", Text(inner), Text(cause));
      case Wrap(before, inner) =>
        TextShowsEveryCause(inner, cause);
        ShowsAtTheEnd(before, Text(inner), Text(cause));
      case WrapBoth(before, first, between, second, after) =>
        if cause in Preorder(first) { TextShowsEveryCause(first, cause); } else { TextShowsEveryCause(second, cause); }
        ShowsOneOfTwo(before, Text(first), between, Text(second), after, Text(cause));
    }
  }

  lemma ShowsAtTheEnd(before: string, inner: string, part: string)
    requires Shows(inner, part)
    ensures Shows(before + inner, part)
  {
    assert before + inner == before + inner + "";
    ShowsWithin(before + inner, before, inner, "", part);
  }

  /** The number that a string of digits stands for. */
  function Number(s: string): int {
    if s == "" then 0 else 10 * Number(s[..|s| - 1]) + (s[|s| - 1] as int - '0' as int)
  }

  lemma {:induction false} DigitsReadBack(n: nat)
    ensures Digits(n) != "" && Number(Digits(n)) == n
    ensures forall c :: c in Digits(n) ==> '0' <= c <= '9'
  {
    var last := [(n % 10 + '0' as int) as char];
    assert Number(last) == n % 10 by { assert last[..0] == ""; }
    if n >= 10 {
      DigitsReadBack(n / 10);
      assert Digits(n)[..|Digits(n)| - 1] == Digits(n / 10);
    }
  }

  /** The message of an API error shows the request, the status, and the summary of the body. */
  lemma ApiTextShows(status: int, body: string, verb: string, path: string)
    ensures var text := Text(Api(status, body, verb, path));
            Shows(text, verb) && Shows(text, path) && Shows(text, Decimal(status)) && Shows(text, BodyText.SummarizeBody(body))
    ensures status >= 0 ==> Number(Decimal(status)) == status
  {
    hide Shows, Decimal;
    var sum, number := BodyText.SummarizeBody(body), Decimal(status);
    hide BodyText.SummarizeBody;
    ShowsItself(verb);
    ShowsItself(path);
    ShowsItself(number);
    ShowsItself(sum);
    ShowsAtTheEnd("vcd: ", verb, verb);
    var front := "vcd: " + verb + " ";
    ShowsAtTheStart("vcd: " + verb, " ", verb);
    ShowsOnAndOn(front, path, " returned ", verb);
    ShowsOnAndOn(front + path + " returned ", number, ": ", verb);
    ShowsOnAndOn(front + path + " returned ", number, ": ", path);
    ShowsOnAndOn(front + path + " returned " + number + ": ", sum, "", verb);
    ShowsOnAndOn(front + path + " returned " + number + ": ", sum, "", path);
    ShowsOnAndOn(front + path + " returned " + number + ": ", sum, "", number);
    assert Text(Api(status, body, verb, path)) == front + path + " returned " + number + ": " + sum + "";
    if status >= 0 { DecimalReadsBack(status); }
  }

  lemma DecimalReadsBack(n: nat)
    ensures Number(Decimal(n)) == n
  {
    DigitsReadBack(n);
  }

  lemma ShowsAtTheStart(inner: string, after: string, part: string)
    requires Shows(inner, part)
    ensures Shows(inner + after, part)
  {
    assert inner + after == "" + inner + after;
    ShowsWithin(inner + after, "", inner, after, part);
  }

  /** Growing at the end keeps what is shown and shows what is added. */
  lemma ShowsOnAndOn(front: string, more: string, after: string, part: string)
    ensures Shows(front, part) ==> Shows(front + more + after, part)
    ensures Shows(front + more + after, more)
  {
    assert front + more + after == front + (more + after);
    if Shows(front, part) { ShowsAtTheStart(front, more + after, part); }
  }

  // ---------- Wrapping never changes a classification ----------

  /** One more layer put around an error by its callers: either a single %w, or a second %w behind
      a sibling error that the search visits first. */
  datatype Layer =
    | Around(before: string)
    | Behind(before: string, sibling: Error, between: string, after: string)

  function Wrapped(e: Error, layers: seq<Layer>): Error {
    if layers == [] then e else
    var inner := Wrapped(e, layers[1..]);
    match layers[0]
    case Around(before) => Wrap(before, inner)
    case Behind(before, sibling, between, after) => WrapBoth(before, sibling, between, inner, after)
  }

  lemma {:induction false} SearchSeesThroughLayers(e: Error, layers: seq<Layer>, target: Error -> bool)
    requires forall x :: x in layers && x.Behind? ==> As(x.sibling, target).None?
    requires forall x: Error :: x.Wrap? || x.WrapBoth? ==> !target(x)
    ensures As(Wrapped(e, layers), target) == As(e, target)
  {
    if layers != [] {
      SearchSeesThroughLayers(e, layers[1..], target);
      assert layers[0] in layers;
    }
  }

  /** However an error is wrapped on its way up, the three classifications stay what they were,
      provided the siblings put in front of it are neither permanent nor API errors. */
  lemma {:induction false} ClassificationSurvivesWrapping(e: Error, layers: seq<Layer>)
    requires forall x :: x in layers && x.Behind? ==> !IsPermanent(x.sibling) && FindApi(x.sibling).None?
    ensures IsPermanent(Wrapped(e, layers)) == IsPermanent(e)
    ensures IsRetryable(Wrapped(e, layers)) == IsRetryable(e)
    ensures IsNotFound(Wrapped(e, layers)) == IsNotFound(e)
  {
    SearchSeesThroughLayers(e, layers, (x: Error) => x.Permanent?);
    SearchSeesThroughLayers(e, layers, (x: Error) => x.Api?);
  }

  /** A permanent sibling makes the whole tree permanent, so the condition above is needed. */
  lemma SiblingsClassifyToo(before: string, sibling: Error, between: string, e: Error, after: string)
    ensures IsPermanent(WrapBoth(before, sibling, between, e, after)) == (IsPermanent(sibling) || IsPermanent(e))
    ensures FindApi(WrapBoth(before, sibling, between, e, after))
         == if FindApi(sibling).Some? then FindApi(sibling) else FindApi(e)
  {
  }
}
