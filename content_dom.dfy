/** The page elements the content script inspects and writes
    (extension/content.js): which element counts as a prompt field, the walk
    up the parent chain to the nearest one, and the splice of text into a
    text field at its selection. */
module ContentDom {
  import opened Wrappers
  import opened Text

  /** A page element, reduced to what the content script reads and writes.
      `tagName` is "" when absent. `typeValue` is the element's `type` property,
      "" when it has none; the browser has already normalised it, so an
      input whose `type` attribute is missing or unknown reads "text". `contentEditable` is the
      `contenteditable` attribute, `None` when absent. The selection offsets
      are 0 when the element has none. */
  class Element {
    const tagName: string
    const typeValue: string
    const contentEditable: Option<string>
    const isContentEditable: bool
    const parent: Element?
    var value: string
    var selectionStart: nat
    var selectionEnd: nat

    constructor (tagName: string, typeValue: string, contentEditable: Option<string>,
                 isContentEditable: bool, parent: Element?, value: string)
      ensures this.tagName == tagName && this.typeValue == typeValue
      ensures this.contentEditable == contentEditable && this.isContentEditable == isContentEditable
      ensures this.parent == parent && this.value == value
      ensures selectionStart == 0 && selectionEnd == 0
    {
      this.tagName := tagName;
      this.typeValue := typeValue;
      this.contentEditable := contentEditable;
      this.isContentEditable := isContentEditable;
      this.parent := parent;
      this.value := value;
      selectionStart := 0;
      selectionEnd := 0;
    }
  }

  /** `isPromptField`. */
  predicate IsPromptField(el: Element?) {
    el != null && el.tagName != "" &&
    var tag := ToLower(el.tagName);
    if tag == "textarea" then true
    else if tag == "input" then
      var t := ToLower(el.typeValue);
      t == "text" || t == "search" || t == ""
    else
      el.isContentEditable || el.contentEditable == Some("true")
      || el.contentEditable == Some("") || el.contentEditable == Some("plaintext-only")
  }

  /** Lower-casing keeps a string empty exactly when it was empty. */
  lemma ToLowerEmpty(s: string)
    ensures ToLower(s) == [] <==> s == []
  {
    if s != [] {
      assert |LowerChar(s[0])| >= 1;
    }
  }

  /** The verdict does not depend on the letter case of the tag name or of
      the `type` attribute. */
  lemma PromptFieldCaseInsensitive(a: Element, b: Element)
    requires ToLower(a.tagName) == ToLower(b.tagName) && ToLower(a.typeValue) == ToLower(b.typeValue)
    requires a.isContentEditable == b.isContentEditable && a.contentEditable == b.contentEditable
    ensures IsPromptField(a) == IsPromptField(b)
  {
    ToLowerEmpty(a.tagName);
    ToLowerEmpty(b.tagName);
  }

  lemma LowerText()
    ensures ToLower("TEXT") == "text"
  {
  }

  lemma LowerArea()
    ensures ToLower("AREA") == "area"
  {
  }

  lemma LowerTextarea()
    ensures ToLower("TEXTAREA") == "textarea"
  {
    LowerText();
    LowerArea();
    ToLowerAppend("TEXT", "AREA");
    assert "TEXT" + "AREA" == "TEXTAREA";
  }

  lemma LowerInput()
    ensures ToLower("INPUT") == "input"
  {
  }

  lemma LowerDiv()
    ensures ToLower("DIV") == "div"
  {
  }

  lemma LowerSearch()
    ensures ToLower("Search") == "search"
  {
  }

  lemma LowerPassword()
    ensures ToLower("password") == "password"
  {
    ToLowerOfLower("password");
  }

  /** A text area, as the page reports its tag name, is a prompt field
      whatever its attributes. */
  lemma TextareaIsPromptField(el: Element)
    requires el.tagName == "TEXTAREA"
    ensures IsPromptField(el)
  {
    LowerTextarea();
  }

  /** An input's type is read in any letter case: a search box is a prompt
      field, and a password input is refused even when it is editable. */
  lemma InputTypeDecides(el: Element)
    requires el.tagName == "INPUT"
    ensures el.typeValue == "Search" ==> IsPromptField(el)
    ensures el.typeValue == "password" ==> !IsPromptField(el)
  {
    LowerInput();
    LowerSearch();
    LowerPassword();
  }

  /** Any other element is a prompt field exactly when it is editable:
      `contenteditable="plaintext-only"` makes a `div` one, and
      `contenteditable="false"` on a non-editable `div` does not. */
  lemma EditableDivIsPromptField(el: Element)
    requires el.tagName == "DIV"
    ensures el.contentEditable == Some("plaintext-only") ==> IsPromptField(el)
    ensures !el.isContentEditable && el.contentEditable == Some("false") ==> !IsPromptField(el)
  {
    LowerDiv();
  }

  /** `chain` lists `el` and its ancestors up to the element without a
      parent: the parent chain of a page element is finite. */
  ghost predicate AncestorChain(el: Element?, chain: seq<Element>) {
    if el == null then chain == []
    else
      && |chain| >= 1 && chain[0] == el
      && (forall i :: 0 <= i < |chain| - 1 ==> chain[i].parent == chain[i + 1])
      && chain[|chain| - 1].parent == null
  }

  /** The first prompt field on the chain met before `root`. */
  function FirstPromptField(chain: seq<Element>, root: Element?): Element? {
    if chain == [] || chain[0] == root then null
    else if IsPromptField(chain[0]) then chain[0]
    else FirstPromptField(chain[1..], root)
  }

  /** The element found is a prompt field on the chain before `root`, every
      element before it is neither a prompt field nor `root`, and nothing is
      found exactly when no such element exists. */
  lemma {:induction false} FirstPromptFieldIsFirst(chain: seq<Element>, root: Element?)
    ensures var r := FirstPromptField(chain, root);
            r != null ==>
              exists k :: 0 <= k < |chain| && chain[k] == r && IsPromptField(r) && r != root
                && forall j :: 0 <= j < k ==> !IsPromptField(chain[j]) && chain[j] != root
    ensures FirstPromptField(chain, root) == null <==>
              forall k :: 0 <= k < |chain| && (forall j :: 0 <= j <= k ==> chain[j] != root) ==> !IsPromptField(chain[k])
  {
    if chain != [] && chain[0] != root && !IsPromptField(chain[0]) {
      FirstPromptFieldIsFirst(chain[1..], root);
      var r := FirstPromptField(chain, root);
      if r != null {
        var k :| 0 <= k < |chain[1..]| && chain[1..][k] == r && IsPromptField(r) && r != root
          && forall j :: 0 <= j < k ==> !IsPromptField(chain[1..][j]) && chain[1..][j] != root;
        assert chain[k + 1] == r;
        forall j | 0 <= j < k + 1 ensures !IsPromptField(chain[j]) && chain[j] != root {
          if j > 0 {
            assert chain[j] == chain[1..][j - 1];
          }
        }
      } else {
        forall k | 0 <= k < |chain| && (forall j :: 0 <= j <= k ==> chain[j] != root)
          ensures !IsPromptField(chain[k])
        {
          if k > 0 {
            assert chain[k] == chain[1..][k - 1];
            forall j | 0 <= j <= k - 1 ensures chain[1..][j] != root {
              assert chain[1..][j] == chain[j + 1];
            }
          }
        }
      }
    } else if chain != [] && chain[0] != root {
      assert chain[0] == FirstPromptField(chain, root);
    } else if chain != [] {
      assert forall j :: 0 <= j <= 0 ==> chain[j] == root ==> true;
    }
  }

  /** `findEditableAncestor`: walk up from `el`, stopping before `root` (the
      document element), and return the first prompt field. */
  method FindEditableAncestor(el: Element?, root: Element?, ghost chain: seq<Element>) returns (found: Element?)
    requires AncestorChain(el, chain)
    ensures found == FirstPromptField(chain, root)
  {
    var current := el;
    ghost var i := 0;
    while current != null && current != root
      invariant 0 <= i <= |chain|
      invariant current == (if i < |chain| then chain[i] else null)
      invariant FirstPromptField(chain, root) == FirstPromptField(chain[i..], root)
      decreases |chain| - i
    {
      assert chain[i..][1..] == chain[i + 1..];
      if IsPromptField(current) {
        return current;
      }
      current := current.parent;
      i := i + 1;
    }
    return null;
  }

  /** A text field: the elements whose value is spliced directly. */
  predicate IsTextControl(el: Element) {
    ToLower(el.tagName) == "textarea" || ToLower(el.tagName) == "input"
  }

  function Min(a: nat, b: nat): nat { if a <= b then a else b }

  /** `value.substring(0, start) + text + value.substring(end)`, offsets past
      the end being clamped as `substring` clamps them. */
  function SplicedValue(value: string, start: nat, end: nat, text: string): string {
    value[..Min(start, |value|)] + text + value[Min(end, |value|)..]
  }

  /** The text-field branch of `insertTextIntoTarget`: the selection is
      replaced by `text` and the caret put right after it. */
  method InsertIntoTextControl(target: Element, text: string)
    requires IsTextControl(target)
    modifies target
    ensures target.value == SplicedValue(old(target.value), old(target.selectionStart), old(target.selectionEnd), text)
    ensures target.selectionStart == target.selectionEnd == old(target.selectionStart) + |text|
  {
    var start := target.selectionStart;
    var end := target.selectionEnd;
    var before := target.value[..Min(start, |target.value|)];
    var after := target.value[Min(end, |target.value|)..];
    target.value := before + text + after;
    target.selectionStart := start + |text|;
    target.selectionEnd := start + |text|;
  }

  /** For a selection inside the value, the splice keeps what precedes the
      selection, inserts the text, keeps what follows, and the caret sits
      right after the inserted text. */
  lemma SplicedValueParts(value: string, start: nat, end: nat, text: string)
    requires start <= end <= |value|
    ensures var v := SplicedValue(value, start, end, text);
            && |v| == |value| - (end - start) + |text|
            && v[..start] == value[..start]
            && v[start..start + |text|] == text
            && v[start + |text|..] == value[end..]
  {
  }

  /** Inserting at a caret (an empty selection) and then deleting the inserted
      text restores the value. */
  lemma SpliceAtCaretUndone(value: string, caret: nat, text: string)
    requires caret <= |value|
    ensures var v := SplicedValue(value, caret, caret, text);
            SplicedValue(v, caret, caret + |text|, "") == value
  {
    var v := SplicedValue(value, caret, caret, text);
    assert v[..caret] == value[..caret];
    assert v[caret + |text|..] == value[caret..];
  }
}
