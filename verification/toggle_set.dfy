/**
 * The copy-and-flip `Set` update behind `toggleLike` (src/pages/HomePage.tsx) and
 * `toggleRegister` (src/pages/EventsPage.tsx): a fresh copy of the previous set with one id
 * removed when present and added when absent.
 */
module ToggleSet {
  function Toggle(s: set<string>, id: string): (r: set<string>)
    ensures id in r <==> id !in s
    ensures forall x :: x != id ==> (x in r <==> x in s)
  {
    if id in s then s - {id} else s + {id}
  }

  /** Toggling the same id twice gives back the original set. */
  lemma ToggleTwice(s: set<string>, id: string)
    ensures Toggle(Toggle(s, id), id) == s
  {
  }

  /** Toggles of different ids do not interfere: their order does not matter. */
  lemma ToggleCommutes(s: set<string>, a: string, b: string)
    ensures Toggle(Toggle(s, a), b) == Toggle(Toggle(s, b), a)
  {
  }
}
