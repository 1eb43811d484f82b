/** Key codes as the main loop sees them, after `cv2.waitKey(30) & 0xFF`. */
module Keys {

  /** A key code after masking with 0xFF. */
  type KeyCode = k: int | 0 <= k < 256

  const Esc: KeyCode := 27
  const Plus: KeyCode := 43       // '+': start editing the selected label
  const Backspace: KeyCode := 8
  const NoKey: KeyCode := 255     // what an idle frame yields: -1 & 0xFF
  const Less: KeyCode := 60       // '<': delete the selected box
  const Enter: KeyCode := 13
  const Star: KeyCode := 42       // '*': wipe every box and the saved file

  /** `key & 0xFF` on the value `cv2.waitKey` returns, which is -1 when no key was pressed. */
  function MaskKey(raw: int): (k: KeyCode)
    ensures (raw - k) % 256 == 0
    ensures 0 <= raw < 256 ==> k == raw
    ensures raw == -1 ==> k == NoKey
  {
    raw % 256
  }

  /** The codes the backspace branch reacts to: 8, and 255. */
  predicate IsBackspace(k: KeyCode) {
    k == Backspace || k == NoKey
  }

  /** The printable range tested by the typing branch. */
  predicate IsPrintable(k: KeyCode) {
    32 <= k <= 126
  }

  /** Printable codes that reach the typing branch: '*', '+' and '<' are taken
      by earlier branches of the dispatch chain. */
  predicate IsTypeable(k: KeyCode) {
    IsPrintable(k) && k != Plus && k != Less && k != Star
  }

  /** Codes some branch before the typing branch takes, whatever the state. */
  predicate IsCommand(k: KeyCode) {
    k == Esc || k == Plus || IsBackspace(k) || k == Less || k == Enter || k == Star
  }

  /** `s[:-1]`: the last character is dropped; an empty string stays empty. */
  function DropLast(s: string): (r: string)
    ensures s == [] ==> r == []
    ensures s != [] ==> r + [s[|s| - 1]] == s
  {
    if s == [] then [] else s[..|s| - 1]
  }

  /** An idle frame is read as a backspace. */
  lemma IdleFrameIsBackspace()
    ensures IsBackspace(MaskKey(-1))
  {
  }

  /** The printable codes that an earlier branch of the dispatch chain takes,
      so that they can never be typed into a label, are exactly '*', '+' and '<'. */
  lemma UntypeablePrintables(k: KeyCode)
    requires IsPrintable(k)
    ensures IsCommand(k) <==> k == 42 || k == 43 || k == 60
  {
  }

  /** The typing branch never sees a command code. */
  lemma TypeableIsNotCommand(k: KeyCode)
    requires IsTypeable(k)
    ensures !IsCommand(k)
  {
  }
}
