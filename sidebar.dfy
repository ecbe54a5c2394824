/** The file manager panel (src/components/Sidebar.tsx): the name a rename
    produces, the duration label, and the panel's editing state driving the
    store. */
module Sidebar {
  import opened VideoTypes
  import opened EditorStore

  // ---------------------------------------------------------------------
  // Renaming

  /** `s.split('.').pop()`: the text after the last '.', or all of `s` when
      it has none. */
  function AfterLastDot(s: string): (r: string)
    ensures '.' !in r
    ensures |r| <= |s| && r == s[|s| - |r|..]
    ensures |r| < |s| ==> s[|s| - |r| - 1] == '.'
  {
    if s == [] then []
    else if s[|s| - 1] == '.' then []
    else
      var r := AfterLastDot(s[..|s| - 1]) + [s[|s| - 1]];
      assert s[..|s| - 1][|s| - |r|..] + [s[|s| - 1]] == s[|s| - |r|..];
      r
  }

  /** A name without a '.' is its own last segment. */
  lemma AfterLastDotWithoutDot(s: string)
    requires '.' !in s
    ensures AfterLastDot(s) == s
  {
  }

  /** The last segment of `x + "." + y` is `y` when `y` has no '.'. */
  lemma {:induction false} AfterLastDotOfJoin(x: string, y: string)
    requires '.' !in y
    ensures AfterLastDot(x + "." + y) == y
    decreases |y|
  {
    var s := x + "." + y;
    if y == [] {
      assert s[|s| - 1] == '.';
    } else {
      JoinWithoutLast(x, y);
      AfterLastDotOfJoin(x, y[..|y| - 1]);
      assert s[|s| - 1] == y[|y| - 1];
      assert y[|y| - 1] in y;
    }
  }

  /** Dropping the last character of `x + "." + y` drops it from `y`. */
  lemma JoinWithoutLast(x: string, y: string)
    requires y != [] && '.' !in y
    ensures (x + "." + y)[..|x| + |y|] == x + "." + y[..|y| - 1]
    ensures '.' !in y[..|y| - 1]
  {
    assert forall c :: c in y[..|y| - 1] ==> c in y;
  }

  /** What joining a name and an extension with '.' gives. */
  lemma JoinedName(x: string, y: string)
    requires '.' !in y
    ensures var r := x + "." + y;
      '.' in r && |r| > |x| && r[..|x|] == x && r[|x|] == '.' && AfterLastDot(r) == y
  {
    var r := x + "." + y;
    assert r[|x|] == '.' && r[..|x|] == x;
    AfterLastDotOfJoin(x, y);
  }

  /** The name an upload rename stores: a new name containing '.' as typed,
      otherwise the new name with '.' and the old name's extension appended. */
  function NameWithExtension(oldName: string, newName: string): (r: string)
    ensures '.' in r
    ensures '.' in newName ==> r == newName
    ensures '.' !in newName ==>
      |r| > |newName| && r[..|newName|] == newName && r[|newName|] == '.'
      && AfterLastDot(r) == AfterLastDot(oldName)
    ensures '.' !in newName ==> |r| == |newName| + 1 + |AfterLastDot(oldName)|
  {
    if '.' in newName then newName
    else
      var ext := AfterLastDot(oldName);
      JoinedName(newName, ext);
      newName + "." + ext
  }

  /** An old name with no '.' is taken whole as the extension. */
  lemma NameWithExtensionOfPlainName(oldName: string, newName: string)
    requires '.' !in oldName && '.' !in newName
    ensures NameWithExtension(oldName, newName) == newName + "." + oldName
  {
    AfterLastDotWithoutDot(oldName);
  }

  /** The store call a rename ends in, if any. */
  datatype RenameCall =
    | NoCall
    | RenameClipCall(id: string, name: string)
    | RenameUploadCall(oldName: string, newName: string)

  /** handleRename's decision. An empty or unchanged text makes no call; a
      clip is renamed by the key it was edited under, with the text as typed;
      an upload gets the text with its extension kept. */
  function RenameRequest(oldName: string, newName: string, isClip: bool): (c: RenameCall)
    ensures c.NoCall? <==> newName == "" || newName == oldName
    ensures c.RenameClipCall? ==> isClip && c.id == oldName && c.name == newName
    ensures c.RenameUploadCall? ==>
      !isClip && c.oldName == oldName && c.newName == NameWithExtension(oldName, newName)
    ensures !c.NoCall? ==> (c.RenameClipCall? <==> isClip)
  {
    if newName == "" || newName == oldName then NoCall
    else if isClip then RenameClipCall(oldName, newName)
    else RenameUploadCall(oldName, NameWithExtension(oldName, newName))
  }

  // ---------------------------------------------------------------------
  // Duration label

  predicate IsDigits(s: string) {
    forall i :: 0 <= i < |s| ==> '0' <= s[i] <= '9'
  }

  /** The number a string of decimal digits denotes. */
  function ValueOf(s: string): nat
    requires IsDigits(s)
  {
    if s == [] then 0 else ValueOf(s[..|s| - 1]) * 10 + (s[|s| - 1] as int - '0' as int)
  }

  function DigitChar(d: nat): (c: char)
    requires d < 10
    ensures '0' <= c <= '9' && c as int - '0' as int == d
  {
    (d + '0' as int) as char
  }

  /** `n.toString()`: the decimal digits of `n`, without leading zeros. */
  function Decimal(n: nat): (s: string)
    ensures |s| >= 1 && IsDigits(s) && ValueOf(s) == n
    ensures |s| > 1 ==> s[0] != '0'
  {
    if n < 10 then [DigitChar(n)]
    else
      var s := Decimal(n / 10) + [DigitChar(n % 10)];
      assert s[..|s| - 1] == Decimal(n / 10);
      s
  }

  /** `padStart(2, '0')` on a number below 60. */
  function PadTwo(n: nat): (s: string)
    requires n < 60
    ensures |s| == 2 && IsDigits(s) && ValueOf(s) == n
  {
    if n < 10 then
      var s := "0" + Decimal(n);
      assert s[..1] == "0";
      s
    else
      var s := Decimal(n);
      assert s == Decimal(n / 10) + [DigitChar(n % 10)];
      assert |Decimal(n / 10)| == 1;
      s
  }

  /** formatDuration on whole seconds: "0:00" for zero, otherwise minutes,
      ':' and two-digit seconds. Read back, the label gives the minutes and
      the seconds below 60 that make up `d`. */
  function FormatDuration(d: nat): (r: string)
    ensures d == 0 ==> r == "0:00"
    ensures |r| >= 4 && r[|r| - 3] == ':'
    ensures IsDigits(r[..|r| - 3]) && IsDigits(r[|r| - 2..])
    ensures ValueOf(r[|r| - 2..]) < 60
    ensures ValueOf(r[..|r| - 3]) * 60 + ValueOf(r[|r| - 2..]) == d
    ensures r[..|r| - 3] == Decimal(d / 60)
  {
    if d == 0 then
      var r := "0:00";
      assert r[..|r| - 3] == "0" && r[|r| - 2..] == "00";
      assert ValueOf("00") == ValueOf("0") * 10;
      r
    else
      var m, p := Decimal(d / 60), PadTwo(d % 60);
      var r := m + ":" + p;
      assert r[..|r| - 3] == m && r[|r| - 2..] == p;
      r
  }

  // ---------------------------------------------------------------------
  // The panel

  /** The panel's own state (which entry is being renamed and the text in
      its input) and the store it drives. */
  class FileManager {
    const store: Store
    var editingName: Option<string>
    var newName: string

    constructor (store: Store)
      ensures this.store == store && editingName == None && newName == ""
    {
      this.store := store;
      editingName := None;
      newName := "";
    }

    /** startRename: the entry's key becomes both the edited key and the
        input's text. Clips are keyed by their id, so the input starts with
        the id, not the clip's name. */
    method StartRename(name: string)
      modifies this
      ensures editingName == Some(name) && newName == name
    {
      editingName := Some(name);
      newName := name;
    }

    /** The input's change handler. */
    method EditName(text: string)
      modifies this`newName
      ensures newName == text
    {
      newName := text;
    }

    /** handleRename: ends editing after making the store call RenameRequest
        decides on, if any. */
    method HandleRename(oldName: string, isClip: bool)
      modifies this`editingName, store`video
      ensures editingName == None
      ensures RenameRequest(oldName, newName, isClip) == NoCall ==>
        store.video == old(store.video)
      ensures RenameRequest(oldName, newName, isClip).RenameClipCall? ==>
        store.video == old(store.video).(batch := RenameClips(old(store.video.batch), oldName, newName))
      ensures RenameRequest(oldName, newName, isClip).RenameUploadCall? ==>
        store.video == old(store.video).(uploadedVideos :=
          RenameUploads(old(store.video.uploadedVideos), oldName, NameWithExtension(oldName, newName)))
    {
      var call := RenameRequest(oldName, newName, isClip);
      match call {
        case NoCall =>
        case RenameClipCall(id, name) =>
          store.RenameClip(id, name);
        case RenameUploadCall(from, to) =>
          store.RenameUploadedVideo(from, to);
      }
      editingName := None;
    }

    /** handleRemoveUpload: clears the active file first when it has that
        name, then drops the uploads with that name. */
    method HandleRemoveUpload(fileName: string)
      modifies store
      ensures store.probes == old(store.probes) && store.trims == old(store.trims)
      ensures store.video.uploadedVideos == WithoutUpload(old(store.video.uploadedVideos), fileName)
      ensures old(store.video.file).Some? && old(store.video.file).value.name == fileName ==>
        store.video == Initial.(uploadedVideos := store.video.uploadedVideos)
      ensures !(old(store.video.file).Some? && old(store.video.file).value.name == fileName) ==>
        store.video == old(store.video).(uploadedVideos := store.video.uploadedVideos)
    {
      if store.video.file.Some? && store.video.file.value.name == fileName {
        store.SetVideoFile(None);
      }
      store.RemoveUploadedVideo(fileName);
    }

    /** handleVideoSelect: makes a listed upload the active file. */
    method HandleVideoSelect(file: MediaFile)
      modifies store
      ensures store.video == old(store.video).(file := Some(file), isProcessing := true,
                                               uploadedVideos := AddUpload(old(store.video.uploadedVideos), file))
      ensures store.probes == old(store.probes) + [file] && store.trims == old(store.trims)
    {
      store.SetVideoFile(Some(file));
    }
  }

  /** Renaming a clip without editing the prefilled text makes no call. */
  lemma UneditedClipRenameMakesNoCall(id: string)
    ensures RenameRequest(id, id, true) == NoCall
  {
  }
}
