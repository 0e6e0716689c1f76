/** Artifact keys: which names the local store accepts, and where they lead below its root. */
module ArtifactKeys {
  import opened Prelude

  predicate IsKeyChar(c: char) {
    'a' <= c <= 'z' || 'A' <= c <= 'Z' || '0' <= c <= '9' || c == '-' || c == '_' || c == '.'
  }

  /** Pieces between slashes, as `str::split` cuts them: one more than there are slashes. */
  function Split(key: string): (segments: seq<string>)
    ensures |segments| > 0
  {
    if key == "" then [""]
    else if key[0] == '/' then [""] + Split(key[1..])
    else
      var rest := Split(key[1..]);
      [[key[0]] + rest[0]] + rest[1..]
  }

  function Rejoin(segments: seq<string>): string
    requires |segments| > 0
  {
    if |segments| == 1 then segments[0] else segments[0] + "/" + Rejoin(segments[1..])
  }

  predicate IsStep(segment: string) {
    segment == "" || segment == "." || segment == ".."
  }

  predicate IsName(segment: string) {
    !IsStep(segment) && forall i :: 0 <= i < |segment| ==> IsKeyChar(segment[i])
  }

  /** validate_key */
  predicate ValidKey(key: string) {
    key != "" && key[0] != '/' && forall i :: 0 <= i < |Split(key)| ==> IsName(Split(key)[i])
  }

  /** Where the file system goes from directory `at`: empty and dot segments stay, dot-dot goes up. */
  function Walk(at: seq<string>, segments: seq<string>): seq<string>
    decreases |segments|
  {
    if segments == [] then at
    else if segments[0] == "" || segments[0] == "." then Walk(at, segments[1..])
    else if segments[0] == ".." then Walk(if at == [] then [] else at[..|at| - 1], segments[1..])
    else Walk(at + [segments[0]], segments[1..])
  }

  /** `root.join(key)`: an absolute key would replace the root. */
  function Located(root: seq<string>, key: string): seq<string> {
    Walk(if key != "" && key[0] == '/' then [] else root, Split(key))
  }

  function Resolve(root: seq<string>, key: string): Option<seq<string>> {
    if ValidKey(key) then Some(Located(root, key)) else None
  }

  lemma {:induction false} WalkIsShort(at: seq<string>, segments: seq<string>)
    ensures |Walk(at, segments)| <= |at| + |segments|
    decreases |segments|
  {
    if segments == [] {
    } else {
      var s := segments[0];
      var next := if !IsStep(s) then at + [s] else if s == ".." && at != [] then at[..|at| - 1] else at;
      WalkIsShort(next, segments[1..]);
    }
  }

  /** A walk keeps everything it is told if and only if no segment is a step in place or upwards. */
  lemma {:induction false} WalkAppends(at: seq<string>, segments: seq<string>)
    ensures Walk(at, segments) == at + segments <==> forall i :: 0 <= i < |segments| ==> !IsStep(segments[i])
    decreases |segments|
  {
    if segments == [] {
      assert at + segments == at;
    } else {
      var s, rest := segments[0], segments[1..];
      assert segments == [s] + rest;
      if IsStep(s) {
        WalkIsShort(if s == ".." && at != [] then at[..|at| - 1] else at, rest);
      } else {
        WalkAppends(at + [s], rest);
        assert at + segments == at + [s] + rest;
      }
    }
  }

  lemma {:induction false} SplitRejoins(key: string)
    ensures Rejoin(Split(key)) == key
  {
    if key == "" {
    } else {
      SplitRejoins(key[1..]);
      var rest := Split(key[1..]);
      var segments := Split(key);
      if key[0] == '/' {
        assert segments[1..] == rest;
        assert key == "" + "/" + key[1..];
      } else {
        assert segments[1..] == rest[1..];
        assert key == [key[0]] + key[1..];
        if |rest| > 1 {
          assert [key[0]] + rest[0] + "/" + Rejoin(rest[1..]) == [key[0]] + (rest[0] + "/" + Rejoin(rest[1..]));
        }
      }
    }
  }

  /**
   A key is accepted exactly when its characters are allowed and it leads straight down from the root,
   one directory a segment.
   */
  lemma AcceptedKeysGoDown(root: seq<string>, key: string)
    ensures ValidKey(key) <==>
      (forall i, j :: 0 <= i < |Split(key)| && 0 <= j < |Split(key)[i]| ==>
         var c := Split(key)[i][j];
         'a' <= c <= 'z' || 'A' <= c <= 'Z' || '0' <= c <= '9' || c == '-' || c == '_' || c == '.')
      && Located(root, key) == root + Split(key)
  {
    var segments := Split(key);
    if key == "" {
      assert segments == [""];
      WalkAppends(root, segments);
    } else if key[0] == '/' {
      assert segments[0] == "";
      WalkIsShort([], segments[1..]);
    } else {
      WalkAppends(root, segments);
    }
  }

  /** So an accepted artifact stays below the root, and no two share a file. */
  lemma ArtifactsStayApart(root: seq<string>, key: string, other: string)
    requires ValidKey(key) && ValidKey(other)
    ensures root < Resolve(root, key).value
    ensures Resolve(root, key) == Resolve(root, other) <==> key == other
  {
    AcceptedKeysGoDown(root, key);
    AcceptedKeysGoDown(root, other);
    if Resolve(root, key) == Resolve(root, other) {
      assert Split(key) == (root + Split(key))[|root|..];
      assert Split(other) == (root + Split(other))[|root|..];
      SplitRejoins(key);
      SplitRejoins(other);
    }
  }

  /** What the refusals are for: such segments stay in place or go up, and an absolute key drops the root. */
  lemma RefusedSegmentsLeadAstray(at: seq<string>, rest: seq<string>, root: seq<string>, key: string)
    ensures Walk(at, [""] + rest) == Walk(at, rest) && Walk(at, ["."] + rest) == Walk(at, rest)
    ensures at != [] ==> Walk(at, [".."] + rest) == Walk(at[..|at| - 1], rest)
    ensures Located(root, "/" + key) == Walk([], Split(key))
  {
    assert ([""] + rest)[1..] == rest && (["."] + rest)[1..] == rest && ([".."] + rest)[1..] == rest;
    assert ("/" + key)[1..] == key && Split("/" + key) == [""] + Split(key);
    assert ([""] + Split(key))[1..] == Split(key);
  }
}
