/** `handleSave` of the create-playlist modal (components/Create-Playlist.jsx). */
module CreatePlaylist {
  import opened Wrappers
  import opened Js

  /** The modal after a save press: the name passed to `onSave` if any, the text field, whether `onClose` ran. */
  datatype Saved = Saved(saved: Option<string>, name: string, closed: bool)

  /** Trimming leaves nothing exactly when the name is all white space. */
  lemma {:induction false} TrimStartEmpty(s: string)
    ensures TrimStart(s) == "" <==> forall i :: 0 <= i < |s| ==> IsSpace(s[i])
    decreases |s|
  {
    if |s| > 0 && IsSpace(s[0]) {
      TrimStartEmpty(s[1..]);
      assert forall i :: 1 <= i < |s| ==> s[1..][i - 1] == s[i];
    }
  }

  lemma {:induction false} TrimEndEmpty(s: string)
    ensures TrimEnd(s) == "" <==> forall i :: 0 <= i < |s| ==> IsSpace(s[i])
    decreases |s|
  {
    if |s| > 0 && IsSpace(s[|s| - 1]) {
      TrimEndEmpty(s[..|s| - 1]);
      assert forall i :: 0 <= i < |s| - 1 ==> s[..|s| - 1][i] == s[i];
    }
  }

  /** What `TrimStart` leaves, if anything, begins with a non-space. */
  lemma {:induction false} TrimStartHead(s: string)
    ensures TrimStart(s) != "" ==> !IsSpace(TrimStart(s)[0])
    decreases |s|
  {
    if |s| > 0 && IsSpace(s[0]) {
      TrimStartHead(s[1..]);
    }
  }

  /** `s.trim() !== ""` exactly when `s` has a non-space character. */
  lemma TrimEmpty(s: string)
    ensures Trim(s) == "" <==> forall i :: 0 <= i < |s| ==> IsSpace(s[i])
  {
    var t := TrimStart(s);
    TrimStartEmpty(s);
    TrimEndEmpty(t);
    TrimStartHead(s);
  }

  /** `handleSave()` with the text field holding `name`. */
  function HandleSave(name: string): (r: Saved)
    ensures r.saved.Some? <==> exists i :: 0 <= i < |name| && !IsSpace(name[i])
    ensures r.saved.Some? ==> r.saved.value == name && r.name == "" && r.closed
    ensures r.saved.None? ==> r.name == name && !r.closed
  {
    TrimEmpty(name);
    if Trim(name) != "" then Saved(Some(name), "", true) else Saved(None, name, false)
  }
}
