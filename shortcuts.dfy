/** The window-wide keyboard shortcuts of the layout editor (enableKeyboardShortcuts,
    disableKeyboardShortcuts): which host call a key press makes. */
module Shortcuts {
  import opened Common
  import opened Elements

  /** toLowerCase on the characters of key names, for the letters A-Z; other letters
      are left as they are. */
  function LowerChar(c: char): (r: char)
    ensures 'A' <= c <= 'Z' ==> r as int == c as int + 32
    ensures !('A' <= c <= 'Z') ==> r == c
    ensures !('A' <= r <= 'Z')
  {
    if 'A' <= c <= 'Z' then (c as int + 32) as char else c
  }

  function Lower(s: string): (r: string)
    ensures |r| == |s|
    ensures forall i :: 0 <= i < |s| ==> r[i] == LowerChar(s[i])
  {
    seq(|s|, i requires 0 <= i < |s| => LowerChar(s[i]))
  }

  /** Lower-casing twice is lower-casing once. */
  lemma LowerIdempotent(s: string)
    ensures Lower(Lower(s)) == Lower(s)
  {
    var once := Lower(s);
    assert forall i :: 0 <= i < |s| ==> LowerChar(once[i]) == once[i];
  }

  predicate StartsWith(s: string, prefix: string)
  {
    |prefix| <= |s| && s[..|prefix|] == prefix
  }

  /** The key name the handler dispatches on: lower-cased, with "esc" spelt "escape". */
  function Normalized(key: string): (n: string)
    ensures Lower(key) != "esc" ==> n == Lower(key)
  {
    var k := Lower(key);
    if k == "esc" then "escape" else k
  }

  /** The host call a key press makes; None for a key without a shortcut. Keys whose
      lower-cased name starts with "arrow" always go to OnArrowKeyPressed with the rest of
      the name as the direction; c, v, a, z and y need Ctrl. */
  function KeyIntent(key: string, ctrl: bool, shift: bool): (r: Option<Request>)
    ensures StartsWith(Lower(key), "arrow") ==> r == Some(ArrowPressed(Lower(key)[5..], shift))
    ensures r.Some? && r.value.ArrowPressed? ==> StartsWith(Lower(key), "arrow")
    ensures !StartsWith(Lower(key), "arrow") ==>
              (r.Some? <==> Normalized(key) in ["escape", "delete"] ||
                            (ctrl && Normalized(key) in ["c", "v", "a", "z", "y"]))
    ensures r.Some? ==> MethodName(r.value).Some?
  {
    var k := Lower(key);
    var n := Normalized(key);
    if StartsWith(k, "arrow") then Some(ArrowPressed(n[5..], shift))
    else if n == "escape" then Some(EscapePressed)
    else if n == "delete" then Some(DeletePressed)
    else if !ctrl then None
    else if n == "c" then Some(CopyPressed)
    else if n == "v" then Some(PastePressed)
    else if n == "a" then Some(SelectAllPressed)
    else if n == "z" then Some(UndoPressed)
    else if n == "y" then Some(RedoPressed)
    else None
  }

  /** The shortcut does not depend on the case of the key name. */
  lemma KeyIntentIgnoresCase(key: string, ctrl: bool, shift: bool)
    ensures KeyIntent(key, ctrl, shift) == KeyIntent(Lower(key), ctrl, shift)
  {
    LowerIdempotent(key);
  }

  /** Lower-casing distributes over concatenation. */
  lemma LowerAppend(a: string, b: string)
    ensures Lower(a + b) == Lower(a) + Lower(b)
  {
    assert forall i :: 0 <= i < |a + b| ==> Lower(a + b)[i] == (Lower(a) + Lower(b))[i];
  }

  /** Every spelling of "esc" or "escape", in any case, cancels, whatever the modifiers. */
  lemma EscSpellings(key: string, ctrl: bool, shift: bool)
    requires Lower(key) == "esc" || Lower(key) == "escape"
    ensures KeyIntent(key, ctrl, shift) == Some(EscapePressed)
  {
    assert !StartsWith(Lower(key), "arrow") by { assert Lower(key)[0] != "arrow"[0]; }
  }

  /** Delete, in any case, deletes, whatever the modifiers. */
  lemma DeleteSpellings(key: string, ctrl: bool, shift: bool)
    requires Lower(key) == "delete"
    ensures KeyIntent(key, ctrl, shift) == Some(DeletePressed)
  {
    assert !StartsWith(Lower(key), "arrow") by { assert Lower(key)[0] != "arrow"[0]; }
  }

  /** A key named by "arrow" in any case, followed by any rest, reports the lower-cased
      rest as its direction, whatever Ctrl says: ArrowUp gives "up", ArrowLeft "left". */
  lemma ArrowDirections(prefix: string, rest: string, ctrl: bool, shift: bool)
    requires Lower(prefix) == "arrow"
    ensures KeyIntent(prefix + rest, ctrl, shift) == Some(ArrowPressed(Lower(rest), shift))
  {
    LowerAppend(prefix, rest);
    var k := Lower(prefix + rest);
    assert k[..5] == "arrow";
    assert k[5..] == Lower(rest);
  }

  /** A one-character key acts only with Ctrl, and then only for c, v, a, z and y in
      either case: C copies, V pastes, A selects all, Z undoes and Y redoes. */
  lemma LettersNeedCtrl(key: string, shift: bool)
    requires |key| == 1
    ensures KeyIntent(key, false, shift).None?
    ensures KeyIntent(key, true, shift).Some? <==> Lower(key) in ["c", "v", "a", "z", "y"]
    ensures Lower(key) == "c" ==> KeyIntent(key, true, shift) == Some(CopyPressed)
    ensures Lower(key) == "v" ==> KeyIntent(key, true, shift) == Some(PastePressed)
    ensures Lower(key) == "a" ==> KeyIntent(key, true, shift) == Some(SelectAllPressed)
    ensures Lower(key) == "z" ==> KeyIntent(key, true, shift) == Some(UndoPressed)
    ensures Lower(key) == "y" ==> KeyIntent(key, true, shift) == Some(RedoPressed)
  {
    var k := Lower(key);
    assert !StartsWith(k, "arrow");
    assert Normalized(key) == k;
    assert k != "escape" && k != "delete";
  }

  /** The listeners a window holds, and the one enableKeyboardShortcuts registered. */
  class ShortcutHost {
    /** Every keydown listener on the window, by identity. */
    var listeners: seq<int>
    /** window.__keyboardShortcutsHandler. */
    var current: Option<int>

    constructor (others: seq<int>)
      ensures listeners == others && current == None
    {
      listeners := others;
      current := None;
    }

    /** enableKeyboardShortcuts: any previous shortcut listener is removed first, so at most
        one is ever registered. addEventListener ignores a listener that is already
        registered. */
    method Enable(handler: int)
      modifies this
      ensures var kept := if old(current).Some? then Without(old(listeners), old(current).value) else old(listeners);
              listeners == kept + (if handler in kept then [] else [handler])
      ensures current == Some(handler)
      ensures handler in listeners
    {
      if current.Some? {
        Disable();
      }
      if handler !in listeners {
        listeners := listeners + [handler];
      }
      current := Some(handler);
    }

    /** disableKeyboardShortcuts. */
    method Disable()
      modifies this
      ensures listeners == (if old(current).Some? then Without(old(listeners), old(current).value) else old(listeners))
      ensures current == None
    {
      if current.Some? {
        listeners := RemoveListener(listeners, current.value);
        current := None;
      }
    }
  }

  /** removeEventListener: every registration of that listener goes. */
  function Without(ls: seq<int>, h: int): (r: seq<int>)
    ensures h !in r
    ensures forall x :: x in r <==> x in ls && x != h
    ensures |r| <= |ls|
  {
    if ls == [] then []
    else if Last(ls) == h then Without(DropLast(ls), h)
    else
      assert forall x :: x in ls <==> x in DropLast(ls) || x == Last(ls);
      Without(DropLast(ls), h) + [Last(ls)]
  }

  method RemoveListener(ls: seq<int>, h: int) returns (r: seq<int>)
    ensures r == Without(ls, h)
  {
    r := [];
    var i := 0;
    while i < |ls|
      invariant 0 <= i <= |ls|
      invariant r == Without(ls[..i], h)
    {
      assert DropLast(ls[..i + 1]) == ls[..i];
      if ls[i] != h {
        r := r + [ls[i]];
      }
      i := i + 1;
    }
    assert ls[..i] == ls;
  }

  /** Enabling twice leaves one registration of the new listener and none of the old. */
  lemma EnableTwiceKeepsOne(ls: seq<int>, h1: int, h2: int)
    requires h1 !in ls && h2 !in ls && h1 != h2
    ensures var after := Without(ls + [h1], h1) + [h2];
            h1 !in after && multiset(after)[h2] == 1
  {
    var w := Without(ls + [h1], h1);
    assert h2 !in w;
    assert multiset(w)[h2] == 0;
  }
}
