/**
 * The preview strip: the output sockets marked as previewed, in the order they
 * were marked, and one preview view per socket at the same position.
 */
module PreviewUi {
  import opened Outcomes
  import opened JavaLists
  import opened PipelineModel

  /** The preview view created for a socket. */
  datatype PreviewView = PreviewView(socket: OutputSocket)

  /**
   * The previewed-socket list after a preview-changed event for `socket`, whose
   * `isPreviewed()` is `isPreviewed`: a newly previewed socket is appended
   * unless it is already listed; an un-previewed one is removed from where it
   * is listed, if it is.
   */
  function Previewed(list: seq<OutputSocket>, socket: OutputSocket, isPreviewed: bool): (r: seq<OutputSocket>)
    ensures isPreviewed ==> socket in r && |list| <= |r| && r[..|list|] == list
    ensures !isPreviewed ==> multiset(r) == multiset(list) - multiset{socket}
  {
    if isPreviewed then
      if socket in list then list else list + [socket]
    else
      match FirstMatch(list, socket, Self)
      case None => list
      case Some(i) => RemoveAt(list, i)
  }

  /** A list without duplicates stays without duplicates. */
  lemma PreviewedKeepsNoDuplicates(list: seq<OutputSocket>, socket: OutputSocket, isPreviewed: bool)
    requires NoDuplicates(list)
    ensures NoDuplicates(Previewed(list, socket, isPreviewed))
  {
  }

  /** After the event the socket is listed exactly when it is previewed. */
  lemma PreviewedListsExactlyWhenPreviewed(list: seq<OutputSocket>, socket: OutputSocket, isPreviewed: bool)
    requires NoDuplicates(list)
    ensures socket in Previewed(list, socket, isPreviewed) <==> isPreviewed
  {
  }

  /** Every other socket keeps its listed or unlisted state, and the listed ones keep their order. */
  lemma PreviewedLeavesOthers(list: seq<OutputSocket>, socket: OutputSocket, isPreviewed: bool)
    ensures forall t :: t != socket ==> (t in Previewed(list, socket, isPreviewed) <==> t in list)
    ensures socket in list && isPreviewed ==> Previewed(list, socket, isPreviewed) == list
    ensures socket !in list && !isPreviewed ==> Previewed(list, socket, isPreviewed) == list
    ensures socket !in list && isPreviewed ==> Previewed(list, socket, isPreviewed) == list + [socket]
  {
  }

  /** Repeating an event changes nothing the second time. */
  lemma PreviewedIsIdempotent(list: seq<OutputSocket>, socket: OutputSocket, isPreviewed: bool)
    requires NoDuplicates(list)
    ensures Previewed(Previewed(list, socket, isPreviewed), socket, isPreviewed) == Previewed(list, socket, isPreviewed)
  {
  }

  class PreviewsController {
    /** The sockets marked as previewed. */
    var previewedSockets: seq<OutputSocket>
    /** The children of the preview box. */
    var previewBox: seq<PreviewView>

    /** The two lists line up position by position, and no socket is listed twice. */
    ghost predicate Valid()
      reads this
    {
      |previewBox| == |previewedSockets| &&
      (forall i :: 0 <= i < |previewBox| ==> previewBox[i].socket == previewedSockets[i]) &&
      NoDuplicates(previewedSockets)
    }

    constructor ()
      ensures Valid() && previewedSockets == [] && previewBox == []
    {
      previewedSockets, previewBox := [], [];
    }

    /**
     * `onSocketPreviewChanged`: a previewed socket not yet listed is appended
     * together with a new view; an un-previewed socket that is listed is removed
     * together with the view at the same position.
     */
    method OnSocketPreviewChanged(socket: OutputSocket, isPreviewed: bool)
      requires Valid()
      modifies this
      ensures Valid()
      ensures previewedSockets == Previewed(old(previewedSockets), socket, isPreviewed)
      ensures !isPreviewed && socket in old(previewedSockets) ==>
        exists i :: 0 <= i < |old(previewBox)| && old(previewedSockets)[i] == socket &&
          previewedSockets == RemoveAt(old(previewedSockets), i) && previewBox == RemoveAt(old(previewBox), i)
      ensures (socket in previewedSockets) == isPreviewed
    {
      PreviewedKeepsNoDuplicates(previewedSockets, socket, isPreviewed);
      PreviewedListsExactlyWhenPreviewed(previewedSockets, socket, isPreviewed);
      var at := IndexWhere(previewedSockets, socket, Self);
      if isPreviewed {
        if at.None? {
          previewedSockets := previewedSockets + [socket];
          previewBox := previewBox + [PreviewView(socket)];
        }
      } else if at.Some? {
        var index := at.value;
        previewedSockets := RemoveAt(previewedSockets, index);
        previewBox := RemoveAt(previewBox, index);
      }
    }
  }
}
