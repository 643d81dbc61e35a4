/**
 * The update document built by the player editor: the request body is
 * folded, entry by entry, into a dictionary that drops the cooldown and
 * battle-pass keys and merges `parent.child` keys into one nested object
 * per parent.
 */
module PlayerPatch {
  import opened Wrappers
  import opened Text

  /** A JSON value of a request body or a player document. */
  datatype JsonValue =
    | JNull
    | JBool(b: bool)
    | JNum(n: int)
    | JStr(s: string)
    | JArr(items: seq<JsonValue>)
    | JObj(fields: map<string, JsonValue>)

  /** The request body in `Object.entries` order. */
  type Body = seq<(string, JsonValue)>

  /** The `updatedData` dictionary, applied with `$set`. */
  type Patch = map<string, JsonValue>

  /** Key prefixes the editor may not write besides the `last` cooldowns. */
  const BLOCKED_FIELDS: seq<string> := ["battlePass"]

  /** A key the loop skips: a cooldown (`last…`) or a blocked prefix. */
  predicate Skipped(key: string)
  {
    StartsWith(key, "last") || exists i :: 0 <= i < |BLOCKED_FIELDS| && StartsWith(key, BLOCKED_FIELDS[i])
  }

  predicate Dotted(key: string)
  {
    FirstDot(key) < |key|
  }

  /** The first segment of `key.split(".")`. */
  function Parent(key: string): string
  {
    key[..FirstDot(key)]
  }

  /** The second segment of `key.split(".")`; later segments are ignored. */
  function Child(key: string): string
    requires Dotted(key)
  {
    var rest := key[FirstDot(key) + 1..];
    rest[..FirstDot(rest)]
  }

  /** The top-level key of the patch an entry writes. */
  function Target(key: string): string
  {
    if Dotted(key) then Parent(key) else key
  }

  /**
   * `updatedData[parent] || {}` spread into a new object: the children
   * gathered so far, or none when the parent holds no object.
   */
  function Gathered(acc: Patch, parent: string): map<string, JsonValue>
  {
    if parent in acc && acc[parent].JObj? then acc[parent].fields else map[]
  }

  /** One iteration of the loop over the body. */
  function PatchStep(acc: Patch, key: string, value: JsonValue): Patch
  {
    if Skipped(key) then acc
    else if Dotted(key) then acc[Parent(key) := JObj(Gathered(acc, Parent(key))[Child(key) := value])]
    else acc[key := value]
  }

  /** The dictionary after the loop has consumed all of `body`. */
  function PatchOf(body: Body): Patch
    decreases |body|
  {
    if body == [] then map[]
    else PatchStep(PatchOf(body[..|body| - 1]), body[|body| - 1].0, body[|body| - 1].1)
  }

  /** The handler's `for` loop over `Object.entries(req.body)`. */
  method BuildPlayerPatch(body: Body) returns (patch: Patch)
    ensures patch == PatchOf(body)
  {
    patch := map[];
    for i := 0 to |body|
      invariant patch == PatchOf(body[..i])
    {
      var (key, value) := body[i];
      assert body[..i + 1][..i] == body[..i];
      if StartsWith(key, "last") {
        continue;
      }
      if exists f :: 0 <= f < |BLOCKED_FIELDS| && StartsWith(key, BLOCKED_FIELDS[f]) {
        continue;
      }
      if FirstDot(key) < |key| {
        var parent, child := Parent(key), Child(key);
        var earlier := if parent in patch && patch[parent].JObj? then patch[parent].fields else map[];
        patch := patch[parent := JObj(earlier[child := value])];
      } else {
        patch := patch[key := value];
      }
    }
    assert body[..|body|] == body;
  }

  /** A prefix of a key that starts with `p`, and is at least as long as `p`, also starts with `p`. */
  lemma PrefixKeepsStart(key: string, n: nat, p: string)
    requires n <= |key| && StartsWith(key[..n], p)
    ensures StartsWith(key, p)
  {
    assert key[..n][..|p|] == key[..|p|];
  }

  /** The two prefixes the loop skips, written out. */
  lemma SkippedIff(key: string)
    ensures Skipped(key) <==> StartsWith(key, "last") || StartsWith(key, "battlePass")
  {
    assert BLOCKED_FIELDS[0] == "battlePass";
  }

  /** A key starts with every prefix its first segment starts with. */
  lemma ParentStart(key: string, p: string)
    ensures StartsWith(Parent(key), p) ==> StartsWith(key, p)
  {
    if StartsWith(Parent(key), p) {
      PrefixKeepsStart(key, FirstDot(key), p);
    }
  }

  /** The top-level key an unskipped entry writes is itself never skipped. */
  lemma TargetNotSkipped(key: string)
    requires !Skipped(key)
    ensures !Skipped(Target(key))
  {
    SkippedIff(key);
    SkippedIff(Target(key));
    ParentStart(key, "last");
    ParentStart(key, "battlePass");
  }

  /** The patch never names a cooldown field or a battle-pass field. */
  lemma {:induction false} PatchNeverSkipped(body: Body)
    decreases |body|
    ensures forall k :: k in PatchOf(body) ==> !StartsWith(k, "last") && !StartsWith(k, "battlePass")
  {
    if body != [] {
      PatchNeverSkipped(body[..|body| - 1]);
      var key := body[|body| - 1].0;
      if !Skipped(key) {
        TargetNotSkipped(key);
        SkippedIff(Target(key));
      }
    }
  }

  /** The patch's keys are exactly the top-level keys of the unskipped entries. */
  lemma {:induction false} PatchKeys(body: Body)
    decreases |body|
    ensures forall k :: k in PatchOf(body) <==>
              exists i :: 0 <= i < |body| && !Skipped(body[i].0) && Target(body[i].0) == k
  {
    if body != [] {
      var init := body[..|body| - 1];
      PatchKeys(init);
      forall k
        ensures k in PatchOf(body) <==> exists i :: 0 <= i < |body| && !Skipped(body[i].0) && Target(body[i].0) == k
      {
        if k in PatchOf(init) {
          var i :| 0 <= i < |init| && !Skipped(init[i].0) && Target(init[i].0) == k;
          assert body[i] == init[i];
        }
        if exists i :: 0 <= i < |body| && !Skipped(body[i].0) && Target(body[i].0) == k {
          var i :| 0 <= i < |body| && !Skipped(body[i].0) && Target(body[i].0) == k;
          if i < |init| {
            assert init[i] == body[i];
          }
        }
      }
    }
  }

  /** A plain key that no later unskipped entry writes over keeps its own value. */
  lemma {:induction false} PlainLastWins(body: Body, i: nat)
    decreases |body|
    requires i < |body| && !Skipped(body[i].0) && !Dotted(body[i].0)
    requires forall j :: i < j < |body| && !Skipped(body[j].0) ==> Target(body[j].0) != body[i].0
    ensures body[i].0 in PatchOf(body) && PatchOf(body)[body[i].0] == body[i].1
  {
    var init := body[..|body| - 1];
    if i < |body| - 1 {
      assert init[i] == body[i];
      forall j | i < j < |init| && !Skipped(init[j].0)
        ensures Target(init[j].0) != init[i].0
      {
        assert init[j] == body[j];
      }
      PlainLastWins(init, i);
    }
  }

  /**
   * A dotted key sets its child under its parent, and later dotted keys with
   * the same parent and other children keep it: the merge never drops
   * children gathered earlier.
   */
  lemma {:induction false} DottedChildKept(body: Body, i: nat)
    decreases |body|
    requires i < |body| && !Skipped(body[i].0) && Dotted(body[i].0)
    requires forall j :: i < j < |body| && !Skipped(body[j].0) && Target(body[j].0) == Parent(body[i].0) ==>
               Dotted(body[j].0) && Child(body[j].0) != Child(body[i].0)
    ensures Parent(body[i].0) in PatchOf(body)
    ensures var p := PatchOf(body)[Parent(body[i].0)];
            p.JObj? && Child(body[i].0) in p.fields && p.fields[Child(body[i].0)] == body[i].1
  {
    var init := body[..|body| - 1];
    if i < |body| - 1 {
      assert init[i] == body[i];
      forall j | i < j < |init| && !Skipped(init[j].0) && Target(init[j].0) == Parent(init[i].0)
        ensures Dotted(init[j].0) && Child(init[j].0) != Child(init[i].0)
      {
        assert init[j] == body[j];
      }
      DottedChildKept(init, i);
    }
  }

  /** A dot-free prefix is found as the first segment. */
  lemma {:induction false} FirstDotAfterPlain(p: string, rest: string)
    requires '.' !in p
    ensures FirstDot(p + rest) == |p| + FirstDot(rest)
  {
    if p != [] {
      assert (p + rest)[0] == p[0] && p[0] != '.';
      assert (p + rest)[1..] == p[1..] + rest;
      FirstDotAfterPlain(p[1..], rest);
    } else {
      assert p + rest == rest;
    }
  }

  /**
   * `"p.c".split(".")` and `"p.c.rest".split(".")` both give `p` and `c` as
   * their first two segments; whatever follows a second dot is ignored.
   */
  lemma Segments(p: string, c: string, rest: string)
    requires '.' !in p && '.' !in c
    ensures var key := p + "." + c;
            Dotted(key) && Parent(key) == p && Child(key) == c
    ensures var key := p + "." + c + "." + rest;
            Dotted(key) && Parent(key) == p && Child(key) == c
  {
    SegmentsOf(p, c, "");
    assert c + "" == c;
    assert p + "." + c + "" == p + "." + c;
    SegmentsOf(p, c, "." + rest);
    assert p + "." + c + ("." + rest) == p + "." + c + "." + rest;
  }

  /** The two segments of `p + "." + c + tail` when `tail` is empty or starts with a dot. */
  lemma SegmentsOf(p: string, c: string, tail: string)
    requires '.' !in p && '.' !in c
    requires tail == [] || tail[0] == '.'
    ensures var key := p + "." + c + tail;
            Dotted(key) && Parent(key) == p && Child(key) == c
  {
    var key := p + "." + c + tail;
    assert key == p + ("." + c + tail);
    FirstDotAfterPlain(p, "." + c + tail);
    assert FirstDot("." + c + tail) == 0;
    var after := key[|p| + 1..];
    assert after == c + tail;
    FirstDotAfterPlain(c, tail);
    assert key[..|p|] == p;
    assert after[..|c|] == c;
  }
}
