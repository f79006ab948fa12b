/** The part of a page element the dashboard writes: its text content and its
    list of CSS class names. `classList.add` and `classList.remove` change the
    list in place; a class list holds each name at most once, so it is a set. */
module ClassList {

  class Element {
    var text: string
    var classes: set<string>

    constructor (text: string, classes: set<string>)
      ensures this.text == text && this.classes == classes
    {
      this.text := text;
      this.classes := classes;
    }

    /** `textContent = s` */
    method SetText(s: string)
      modifies this
      ensures text == s && classes == old(classes)
    {
      text := s;
    }

    /** `classList.add(c)` */
    method Add(c: string)
      modifies this
      ensures classes == old(classes) + {c} && text == old(text)
    {
      classes := classes + {c};
    }

    /** `classList.remove(c)` */
    method Remove(c: string)
      modifies this
      ensures classes == old(classes) - {c} && text == old(text)
    {
      classes := classes - {c};
    }
  }

  /** The class set after `add(on)` followed by `remove(off)`. */
  function Select(classes: set<string>, on: string, off: string): (r: set<string>)
    ensures on != off ==> on in r
    ensures off !in r
    ensures forall c :: c != on && c != off ==> (c in r <==> c in classes)
  {
    classes + {on} - {off}
  }

  /** Selecting the same one of a pair again changes nothing. */
  lemma SelectIdempotent(classes: set<string>, on: string, off: string)
    ensures Select(Select(classes, on, off), on, off) == Select(classes, on, off)
  {
  }

  /** Which one of a pair is selected last decides the pair; the rest of the
      list does not depend on the order or number of selections. */
  lemma SelectLastWins(classes: set<string>, a: string, b: string)
    requires a != b
    ensures Select(Select(classes, a, b), b, a) == Select(classes, b, a)
  {
  }
}
