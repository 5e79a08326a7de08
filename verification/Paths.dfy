/** Slash-separated paths: Go's lexical path.Clean as a stack of segments, and the
    test the operator applies to the path of a projected file. */
module Paths {
  function Split(s: string): (r: seq<string>)
    ensures |r| > 0
  {
    if s == "" then [""]
    else
      var rest := Split(s[1..]);
      if s[0] == '/' then [""] + rest else [[s[0]] + rest[0]] + rest[1..]
  }

  function Join(segments: seq<string>): string
    requires |segments| > 0
  {
    if |segments| == 1 then segments[0] else segments[0] + "/" + Join(segments[1..])
  }

  ghost predicate SlashFree(segments: seq<string>) {
    forall i :: 0 <= i < |segments| ==> '/' !in segments[i]
  }

  lemma {:induction false} JoinSplit(s: string)
    ensures Join(Split(s)) == s
    ensures SlashFree(Split(s))
  {
    if s != "" {
      JoinSplit(s[1..]);
      var rest := Split(s[1..]);
      assert s == [s[0]] + s[1..];
      if s[0] == '/' {
        assert Split(s)[1..] == rest;
      } else {
        assert Split(s)[1..] == rest[1..];
      }
    }
  }

  lemma {:induction false} SplitSegment(segment: string, tail: string)
    requires '/' !in segment
    ensures Split(segment) == [segment]
    ensures Split(segment + "/" + tail) == [segment] + Split(tail)
  {
    var s := segment + "/" + tail;
    if segment == "" {
      assert s == "/" + tail && s[1..] == tail;
    } else {
      SplitSegment(segment[1..], tail);
      assert segment == [segment[0]] + segment[1..];
      assert s[1..] == segment[1..] + "/" + tail;
    }
  }

  lemma {:induction false} SplitJoin(segments: seq<string>)
    requires |segments| > 0 && SlashFree(segments)
    ensures Split(Join(segments)) == segments
  {
    if |segments| == 1 {
      SplitSegment(segments[0], "");
    } else {
      SplitSegment(segments[0], Join(segments[1..]));
      SplitJoin(segments[1..]);
    }
  }

  /** One segment of path.Clean: empty and "." vanish, ".." pops unless there is nothing to pop. */
  function CleanSegment(stack: seq<string>, segment: string, rooted: bool): seq<string> {
    if segment == "" || segment == "." then stack
    else if segment != ".." then stack + [segment]
    else if stack != [] && stack[|stack| - 1] != ".." then stack[..|stack| - 1]
    else if rooted then stack
    else stack + [".."]
  }

  function CleanSegments(segments: seq<string>, rooted: bool): seq<string> {
    if segments == [] then []
    else CleanSegment(CleanSegments(segments[..|segments| - 1], rooted), segments[|segments| - 1], rooted)
  }

  predicate IsAbs(s: string) {
    s != "" && s[0] == '/'
  }

  function Clean(s: string): string {
    var stack := CleanSegments(Split(s), IsAbs(s));
    if IsAbs(s) then (if stack == [] then "/" else "/" + Join(stack))
    else if stack == [] then "." else Join(stack)
  }

  /** The operator's test, in the order the code applies it. */
  predicate ItemPathAccepted(value: string) {
    && !IsAbs(value)
    && var clean := Clean(value);
       !(clean == "." || clean != value || clean == ".." || "../" <= clean)
  }

  predicate PlainSegment(segment: string) {
    segment != "" && segment != "." && segment != ".."
  }

  ghost predicate PlainRelativePath(value: string) {
    forall i :: 0 <= i < |Split(value)| ==> PlainSegment(Split(value)[i])
  }

  lemma {:induction false} CleanKeepsPlain(segments: seq<string>)
    requires forall i :: 0 <= i < |segments| ==> PlainSegment(segments[i])
    ensures CleanSegments(segments, false) == segments
  {
    if segments != [] {
      var front := segments[..|segments| - 1];
      forall i | 0 <= i < |front| ensures PlainSegment(front[i]) { assert front[i] == segments[i]; }
      CleanKeepsPlain(front);
      assert segments == front + [segments[|segments| - 1]];
    }
  }

  /** A cleaned relative path is a run of ".." followed by plain segments. */
  ghost predicate Climbing(stack: seq<string>, up: nat) {
    && up <= |stack|
    && (forall i :: 0 <= i < up ==> stack[i] == "..")
    && (forall i :: up <= i < |stack| ==> PlainSegment(stack[i]))
  }

  lemma {:induction false} CleanShape(segments: seq<string>) returns (up: nat)
    requires SlashFree(segments)
    ensures Climbing(CleanSegments(segments, false), up)
    ensures SlashFree(CleanSegments(segments, false))
  {
    if segments == [] {
      up := 0;
    } else {
      var front, last := segments[..|segments| - 1], segments[|segments| - 1];
      forall i | 0 <= i < |front| ensures '/' !in front[i] { assert front[i] == segments[i]; }
      up := CleanShape(front);
      var stack := CleanSegments(front, false);
      if last == ".." && (stack == [] || stack[|stack| - 1] == "..") {
        assert up == |stack|;
        up := up + 1;
      }
    }
  }

  lemma FirstSegment(value: string)
    ensures Split(value)[0] == ".." <==> value == ".." || "../" <= value
    ensures value == "." ==> Split(value)[0] == "."
  {
    JoinSplit(value);
    SplitSegment(".", "");
    SplitSegment("..", "");
    if "../" <= value {
      SplitSegment("..", value[3..]);
      assert value == ".." + "/" + value[3..];
    }
  }

  /** The Clean-based test accepts exactly the relative paths made of plain segments. */
  lemma ItemPathExact(value: string)
    ensures ItemPathAccepted(value) <==> PlainRelativePath(value)
  {
    var segments := Split(value);
    JoinSplit(value);
    FirstSegment(value);
    if PlainRelativePath(value) {
      CleanKeepsPlain(segments);
      assert PlainSegment(segments[0]);
    }
    if ItemPathAccepted(value) {
      var up := CleanShape(segments);
      var stack := CleanSegments(segments, false);
      assert stack != [];
      SplitJoin(stack);
      assert segments == stack;
      assert up == 0;
    }
  }
}
