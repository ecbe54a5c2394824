/** Client call sequences on the store and the panels, showing what their
    contracts let a caller conclude. */
module Scenarios {
  import opened VideoTypes
  import opened EditorStore
  import opened Sidebar

  /** Loading a 30-second file selects the whole video; a second begin while
      the first probe is outstanding is not refused. */
  method LoadScenario() {
    var store := new Store();
    var a := MediaFile("a.mp4", "video/mp4", 7);
    store.SetVideoFile(Some(a));
    assert store.video.isProcessing && store.video.uploadedVideos == [a];
    store.SetVideoFile(Some(a));
    assert |store.probes| == 2 && store.video.uploadedVideos == [a];
    store.CompleteSetVideoFile(0, Probed(30.0));
    assert store.video.clipStart == 0.0 && store.video.clipEnd == 30.0 && !store.video.isProcessing;
    store.CompleteSetVideoFile(0, ProbeFailed(OtherValue));
    assert store.video.error == Some("An error occurred") && store.video.clipEnd == 30.0;
  }

  /** Renaming the active upload from the panel renames the listed file but
      leaves the active file under its old name; removing the upload by its
      new name then keeps the active file. */
  method RenameActiveScenario() {
    var store := new Store();
    var panel := new FileManager(store);
    var a := MediaFile("a.mp4", "video/mp4", 7);
    assert RenameRequest("a.mp4", "b", false) == RenameUploadCall("a.mp4", "b.mp4") by {
      AfterLastDotOfJoin("a", "mp4");
      assert "a" + "." + "mp4" == "a.mp4";
      assert "b" + "." + "mp4" == "b.mp4";
    }
    assert RenameUploads([a], "a.mp4", "b.mp4") == [MediaFile("b.mp4", "video/mp4", 7)];
    store.SetVideoFile(Some(a));
    panel.StartRename("a.mp4");
    panel.EditName("b");
    panel.HandleRename("a.mp4", false);
    assert store.video.uploadedVideos == [MediaFile("b.mp4", "video/mp4", 7)];
    assert store.video.file == Some(a);
    panel.HandleRemoveUpload("b.mp4");
    assert store.video.uploadedVideos == [] && store.video.file == Some(a);
  }

  /** Clipping without a file resolves to null and changes nothing; with a
      file, a failed trim leaves the batch as it was. */
  method ClipScenario(clip: Clip) {
    var store := new Store();
    var issued := store.ClipVideo(5.0, 12.0);
    assert !issued && store.video == Initial;
    store.SetVideoFile(Some(MediaFile("a.mp4", "video/mp4", 7)));
    store.AddToBatch(clip);
    issued := store.ClipVideo(5.0, 12.0);
    assert issued && store.trims[0].start == 5.0 && store.trims[0].end == 12.0;
    var blob := store.CompleteClipVideo(0, TrimFailed(ErrorObject("exec failed")));
    assert blob == None && store.video.batch == [clip] && store.video.error == Some("exec failed");
    store.RemoveFromBatch(clip.id);
    store.RemoveFromBatch(clip.id);
    assert store.video.batch == [];
  }
}
