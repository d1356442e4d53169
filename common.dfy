/** The helpers of twidder/static/js/common.js: the password-length rule
    and the DOM utilities, with an element reduced to its class list and
    its child nodes. */
module Common {
  import opened JsValues

  const MinPasswordLength := 6

  /** A child node, kept as the markup it stands for. */
  datatype Node = Node(markup: string)

  /** ASCII whitespace, which a class token may not contain. */
  predicate IsAsciiWhitespace(c: char) {
    c == ' ' || c == '\t' || c == '\n' || c == '\U{C}' || c == '\r'
  }

  /** A token `classList.add` accepts: non-empty (else it throws a
      SyntaxError) and without whitespace (else InvalidCharacterError). */
  predicate ValidToken(t: string) {
    t != "" && forall i :: 0 <= i < |t| ==> !IsAsciiWhitespace(t[i])
  }

  /** What a helper returns: `false`, `undefined` (it fell off the end),
      or it threw. */
  datatype Outcome = ReturnedFalse | ReturnedUndefined | Threw

  class Element {
    /** `classList`, in order. */
    var classes: seq<string>
    var children: seq<Node>

    /** A class list holds distinct, valid tokens. */
    ghost predicate Valid()
      reads this
    {
      (forall i :: 0 <= i < |classes| ==> ValidToken(classes[i]))
      && Distinct(classes)
    }

    constructor (children: seq<Node>)
      ensures classes == [] && this.children == children && Valid()
    {
      classes, this.children := [], children;
    }
  }

  predicate Distinct(s: seq<string>) {
    forall i, j :: 0 <= i < j < |s| ==> s[i] != s[j]
  }

  /** The class list without `t`. */
  function Without(classes: seq<string>, t: string): (r: seq<string>)
    ensures t !in r
    ensures forall c :: c in r <==> c in classes && c != t
    ensures t !in classes ==> r == classes
  {
    if classes == [] then []
    else if classes[0] == t then Without(classes[1..], t)
    else [classes[0]] + Without(classes[1..], t)
  }

  lemma {:induction false} WithoutKeepsDistinct(classes: seq<string>, t: string)
    requires Distinct(classes)
    ensures Distinct(Without(classes, t))
  {
    if classes != [] {
      WithoutKeepsDistinct(classes[1..], t);
      var rest := Without(classes[1..], t);
      if classes[0] != t {
        assert classes[0] !in classes[1..];
        assert classes[0] !in rest;
        var r := [classes[0]] + rest;
        forall i, j | 0 <= i < j < |r| ensures r[i] != r[j] {
          if i == 0 {
            assert r[j] == rest[j - 1] && rest[j - 1] in rest;
          } else {
            assert r[i] == rest[i - 1] && r[j] == rest[j - 1];
          }
        }
      }
    }
  }

  /** `Utils.addClass(element, classToAdd)`; a null reference stands for
      anything that is not an HTMLElement. */
  method AddClass(element: Element?, classToAdd: string) returns (r: Outcome)
    requires element != null ==> element.Valid()
    modifies element
    ensures element == null ==> r == ReturnedFalse
    ensures element != null ==>
      && element.Valid()
      && element.children == old(element.children)
      && (classToAdd in old(element.classes) ==> r == ReturnedFalse && element.classes == old(element.classes))
      && (classToAdd !in old(element.classes) && ValidToken(classToAdd) ==>
            r == ReturnedUndefined && element.classes == old(element.classes) + [classToAdd])
      && (classToAdd !in old(element.classes) && !ValidToken(classToAdd) ==>
            r == Threw && element.classes == old(element.classes))
  {
    if element == null || classToAdd in element.classes {
      return ReturnedFalse;
    }
    if !ValidToken(classToAdd) {
      return Threw;
    }
    element.classes := element.classes + [classToAdd];
    r := ReturnedUndefined;
  }

  /** `Utils.removeClass(element, classToRemove)`. A class that is present
      is a valid token, so removing it never throws. */
  method RemoveClass(element: Element?, classToRemove: string) returns (r: Outcome)
    requires element != null ==> element.Valid()
    modifies element
    ensures element == null ==> r == ReturnedFalse
    ensures element != null ==>
      && element.Valid()
      && element.children == old(element.children)
      && (classToRemove !in old(element.classes) ==> r == ReturnedFalse && element.classes == old(element.classes))
      && (classToRemove in old(element.classes) ==>
            r == ReturnedUndefined && element.classes == Without(old(element.classes), classToRemove))
  {
    if element == null || classToRemove !in element.classes {
      return ReturnedFalse;
    }
    WithoutKeepsDistinct(element.classes, classToRemove);
    var kept := Without(element.classes, classToRemove);
    assert forall i :: 0 <= i < |kept| ==> kept[i] in element.classes;
    element.classes := kept;
    r := ReturnedUndefined;
  }

  /** Adding a class that was absent and then removing it gives back the
      class list it started from. */
  lemma {:induction false} RemoveUndoesAdd(classes: seq<string>, t: string)
    requires t !in classes
    ensures Without(classes + [t], t) == classes
  {
    if classes != [] {
      assert (classes + [t])[1..] == classes[1..] + [t];
      RemoveUndoesAdd(classes[1..], t);
    } else {
      assert [t][1..] == [];
    }
  }

  /** `Utils.removeAllChild(element)`: removes the first child while
      there is one. */
  method RemoveAllChild(element: Element?) returns (r: Outcome)
    modifies element
    ensures element == null ==> r == ReturnedFalse
    ensures element != null ==> r == ReturnedUndefined && element.children == []
    ensures element != null ==> element.classes == old(element.classes)
  {
    if element == null {
      return ReturnedFalse;
    }
    while element.children != []
      invariant element.classes == old(element.classes)
      decreases |element.children|
    {
      element.children := element.children[1..];
    }
    r := ReturnedUndefined;
  }

  /** `Utils.createElement(template, withClass)`: a new div whose children
      are what the HTML parser makes of `template` (given here as
      `parsed`), with the class `withClass` when that is a non-empty
      string. None when that class is not a valid token (the add throws). */
  method CreateElement(parsed: seq<Node>, withClass: Value) returns (r: Option<Element>)
    ensures r.None? <==> withClass.Str? && withClass.s != "" && !ValidToken(withClass.s)
    ensures r.Some? ==> fresh(r.value) && r.value.Valid() && r.value.children == parsed
    ensures r.Some? ==> r.value.classes == (if withClass.Str? && withClass.s != "" then [withClass.s] else [])
  {
    var element := new Element(parsed);
    if withClass.Str? && withClass.s != "" {
      var added := AddClass(element, withClass.s);
      if added == Threw {
        return None;
      }
    }
    r := Some(element);
  }

  /** The length JavaScript reports: UTF-16 code units, two for a
      character outside the Basic Multilingual Plane. */
  function Utf16Length(s: string): (n: nat)
    ensures |s| <= n <= 2 * |s|
    ensures (forall i :: 0 <= i < |s| ==> s[i] as int < 0x10000) ==> n == |s|
  {
    if s == [] then 0 else (if s[0] as int < 0x10000 then 1 else 2) + Utf16Length(s[1..])
  }

  /** `Utils.isPasswordLengthValid(password)`. */
  predicate IsPasswordLengthValid(password: Value) {
    password.Str? && Utf16Length(password.s) >= MinPasswordLength
  }

  /** The check accepts exactly strings of at least six characters when
      they stay in the Basic Multilingual Plane, and never rejects a
      string of six characters or more; anything that is not a string is
      rejected. */
  lemma PasswordLengthRule(password: Value)
    ensures !password.Str? ==> !IsPasswordLengthValid(password)
    ensures password.Str? && |password.s| >= MinPasswordLength ==> IsPasswordLengthValid(password)
    ensures password.Str? && (forall i :: 0 <= i < |password.s| ==> password.s[i] as int < 0x10000) ==>
      (IsPasswordLengthValid(password) <==> |password.s| >= MinPasswordLength)
  {
  }

  /** Three characters outside the Basic Multilingual Plane count as six. */
  lemma AstralPasswordPasses()
    ensures IsPasswordLengthValid(Str("\U{1F600}\U{1F600}\U{1F600}"))
    ensures |"\U{1F600}\U{1F600}\U{1F600}"| < MinPasswordLength
  {
    var s := "\U{1F600}\U{1F600}\U{1F600}";
    assert Utf16Length(s) == 2 + Utf16Length(s[1..]);
    assert Utf16Length(s[1..]) == 2 + Utf16Length(s[2..]);
  }
}
