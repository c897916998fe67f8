/** The desktop front end's result browser: the history of processed
    images with its `current_position` cursor (`-1` meaning "the most
    recent"), the four navigation buttons with their position label, and
    the keyword panel that lays keywords out five to a row. Qt widgets are
    reduced to the values they display. */
module Gui {
  import opened Wrappers
  import opened Text

  // ---------------------------------------------------------------------
  // Keyword rows
  // ---------------------------------------------------------------------

  /** `GuiConfig.KEYWORDS_PER_ROW`. */
  const KeywordsPerRow := 5

  /** Number of row layouts `set_keywords` creates for `n` keywords: the
      first row always exists, and another starts at every multiple of
      five after zero. */
  function RowCount(n: nat): (c: nat)
    ensures c >= 1
    ensures n == 0 ==> c == 1
    ensures n > 0 ==> (c - 1) * KeywordsPerRow < n <= c * KeywordsPerRow
  {
    if n == 0 then 1 else (n - 1) / KeywordsPerRow + 1
  }

  /** The keyword labels of each row, row by row: five to a row, the last
      row holding what remains (and the first row existing, empty, when
      there are no keywords). */
  function Layout(kws: seq<string>): seq<seq<string>>
    decreases |kws|
  {
    if |kws| <= KeywordsPerRow then [kws]
    else [kws[..KeywordsPerRow]] + Layout(kws[KeywordsPerRow..])
  }

  /** Keyword `i` sits in row `i / 5` at column `i % 5`; there are
      `RowCount` rows, every one but the last full and the last not empty
      unless there are no keywords. */
  lemma {:induction false} LayoutShape(kws: seq<string>)
    ensures |Layout(kws)| == RowCount(|kws|)
    ensures forall r :: 0 <= r < |Layout(kws)| - 1 ==> |Layout(kws)[r]| == KeywordsPerRow
    ensures |kws| > 0 ==> 0 < |Layout(kws)[|Layout(kws)| - 1]| <= KeywordsPerRow
    ensures forall i :: 0 <= i < |kws| ==>
      && i / KeywordsPerRow < |Layout(kws)|
      && i % KeywordsPerRow < |Layout(kws)[i / KeywordsPerRow]|
      && Layout(kws)[i / KeywordsPerRow][i % KeywordsPerRow] == kws[i]
    decreases |kws|
  {
    if |kws| > KeywordsPerRow {
      var tail := kws[KeywordsPerRow..];
      LayoutShape(tail);
      var rows := Layout(kws);
      assert rows == [kws[..KeywordsPerRow]] + Layout(tail);
      forall i | KeywordsPerRow <= i < |kws|
        ensures i / KeywordsPerRow < |rows|
        ensures i % KeywordsPerRow < |rows[i / KeywordsPerRow]|
        ensures rows[i / KeywordsPerRow][i % KeywordsPerRow] == kws[i]
      {
        var j := i - KeywordsPerRow;
        assert i / KeywordsPerRow == j / KeywordsPerRow + 1;
        assert i % KeywordsPerRow == j % KeywordsPerRow;
        assert tail[j] == kws[i];
      }
    }
  }

  /** Adding one keyword either opens a new row (when it is a sixth,
      eleventh, ... keyword) or extends the last row. */
  lemma {:induction false} LayoutSnoc(p: seq<string>, x: string)
    ensures |Layout(p)| >= 1
    ensures |p| > 0 && |p| % KeywordsPerRow == 0 ==> Layout(p + [x]) == Layout(p) + [[x]]
    ensures !(|p| > 0 && |p| % KeywordsPerRow == 0) ==>
      Layout(p + [x]) == Layout(p)[|Layout(p)| - 1 := Layout(p)[|Layout(p)| - 1] + [x]]
    decreases |p|
  {
    if |p| == KeywordsPerRow {
      assert (p + [x])[..KeywordsPerRow] == p;
      assert (p + [x])[KeywordsPerRow..] == [x];
    } else if |p| > KeywordsPerRow {
      var tail := p[KeywordsPerRow..];
      LayoutSnoc(tail, x);
      assert (p + [x])[..KeywordsPerRow] == p[..KeywordsPerRow];
      assert (p + [x])[KeywordsPerRow..] == tail + [x];
      assert |tail| % KeywordsPerRow == |p| % KeywordsPerRow;
    }
  }

  /** All rows read in order. */
  function Concat(rows: seq<seq<string>>): seq<string>
  {
    if rows == [] then [] else rows[0] + Concat(rows[1..])
  }

  /** The rows hold every keyword once, in the given order. */
  lemma {:induction false} LayoutKeepsOrder(kws: seq<string>)
    ensures Concat(Layout(kws)) == kws
    decreases |kws|
  {
    if |kws| <= KeywordsPerRow {
      assert Concat([kws]) == kws + Concat([]);
    } else {
      var rows := Layout(kws);
      LayoutKeepsOrder(kws[KeywordsPerRow..]);
      assert rows[1..] == Layout(kws[KeywordsPerRow..]);
      assert kws[..KeywordsPerRow] + kws[KeywordsPerRow..] == kws;
    }
  }

  /** `KeywordWidget`: the keywords it was given and the labels in each
      row layout. */
  class KeywordWidget {
    var keywords: seq<string>
    var rows: seq<seq<string>>

    constructor ()
      ensures keywords == [] && rows == []
    {
      keywords := [];
      rows := [];
    }

    /** `clear`: every row is removed and the keyword list emptied. */
    method Clear()
      modifies this
      ensures keywords == [] && rows == []
    {
      rows := [];
      keywords := [];
    }

    /** `set_keywords`: clears the panel, opens the first row, and places
        each keyword in the current row, opening a new row before every
        fifth keyword after the first. */
    method SetKeywords(kws: seq<string>)
      modifies this
      ensures keywords == kws
      ensures rows == Layout(kws)
    {
      Clear();
      keywords := kws;
      rows := [[]];
      var currentRow := 0;
      var i := 0;
      while i < |kws|
        invariant 0 <= i <= |kws|
        invariant keywords == kws
        invariant rows == Layout(kws[..i])
        invariant currentRow == |rows| - 1
      {
        assert |kws[..i]| == i;
        LayoutSnoc(kws[..i], kws[i]);
        assert kws[..i + 1] == kws[..i] + [kws[i]];
        if i > 0 && i % KeywordsPerRow == 0 {
          rows := rows + [[]];
          currentRow := currentRow + 1;
          assert rows[currentRow] + [kws[i]] == [kws[i]];
        }
        rows := rows[currentRow := rows[currentRow] + [kws[i]]];
        i := i + 1;
      }
      assert kws[..i] == kws;
    }
  }

  // ---------------------------------------------------------------------
  // History positions and buttons
  // ---------------------------------------------------------------------

  /** One processed image as the pipeline reports it: the encoded preview,
      the caption, the keywords and the file path. */
  datatype HistoryEntry = HistoryEntry(image: string, caption: string, keywords: seq<string>, filename: string)

  /** A cursor is `-1` ("most recent") or an index into the history. */
  predicate ValidPosition(size: nat, pos: int)
  {
    pos == -1 || 0 <= pos < size
  }

  /** The history index a cursor shows. */
  function Displayed(size: nat, pos: int): int
  {
    if pos == -1 then size - 1 else pos
  }

  /** The cursor after `update_image_preview` appended an entry, giving a
      history of `size` entries: one that followed the newest entry keeps
      following it, any other stays where it was. */
  function AfterAppend(size: nat, pos: int): (r: int)
    ensures size >= 1 && ValidPosition(size - 1, pos) ==> ValidPosition(size, r)
    ensures size >= 1 && ValidPosition(size - 1, pos) ==>
      Displayed(size, r) == if pos == -1 then size - 1 else Displayed(size - 1, pos)
    ensures pos == -1 || size <= 1 ==> r == -1
    ensures pos != -1 && size > 1 ==> r == pos
  {
    if pos == -1 || size <= 1 then -1 else pos
  }

  /** `navigate_first`. */
  function FirstPosition(size: nat, pos: int): (r: int)
    ensures size == 0 ==> r == pos
    ensures ValidPosition(size, pos) ==> ValidPosition(size, r)
    ensures size > 0 ==> Displayed(size, r) == 0
    ensures size > 0 ==> r == 0
  {
    if size > 0 then 0 else pos
  }

  /** `navigate_last`. */
  function LastPosition(size: nat, pos: int): (r: int)
    ensures size == 0 ==> r == pos
    ensures ValidPosition(size, pos) ==> ValidPosition(size, r)
    ensures size > 0 ==> Displayed(size, r) == size - 1
    ensures size > 0 ==> r == -1
  {
    if size > 0 then -1 else pos
  }

  /** `navigate_prev`: one entry back, never before the first. */
  function PrevPosition(size: nat, pos: int): (r: int)
    ensures size == 0 ==> r == pos
    ensures ValidPosition(size, pos) ==> ValidPosition(size, r)
    ensures ValidPosition(size, pos) && size > 0 ==>
      Displayed(size, r) == if Displayed(size, pos) > 0 then Displayed(size, pos) - 1 else 0
    ensures size > 0 && (pos == 0 || (pos == -1 && size == 1)) ==> r == pos
  {
    if size == 0 then pos
    else if pos == -1 then (if size > 1 then size - 2 else pos)
    else if pos > 0 then pos - 1
    else pos
  }

  /** `navigate_next`: one entry forward, never past the newest; arriving
      at the newest turns the cursor back into `-1`. */
  function NextPosition(size: nat, pos: int): (r: int)
    ensures size == 0 ==> r == pos
    ensures ValidPosition(size, pos) ==> ValidPosition(size, r)
    ensures ValidPosition(size, pos) && size > 0 ==>
      Displayed(size, r) == if Displayed(size, pos) < size - 1 then Displayed(size, pos) + 1 else size - 1
    ensures pos != r ==> r != size - 1
  {
    if size != 0 && pos != -1 && pos < size - 1 then
      (if pos + 1 == size - 1 then -1 else pos + 1)
    else pos
  }

  /** The position label: "No images processed", or "Image p of n". */
  datatype PositionLabel = NoImages | ImageOf(position: int, size: nat)

  /** Enabled state of the four buttons and the label between them. */
  datatype Buttons = Buttons(first: bool, prev: bool, next: bool, last: bool, positionLabel: PositionLabel)

  /** `update_navigation_buttons` for a history of `size` entries. */
  function ButtonsFor(size: nat, pos: int): (b: Buttons)
    ensures size == 0 ==> b == Buttons(false, false, false, false, NoImages)
    ensures size > 0 ==> b.positionLabel == ImageOf(Displayed(size, pos) + 1, size)
    ensures ValidPosition(size, pos) && size > 0 ==> 1 <= b.positionLabel.position <= size
    ensures b.first == b.prev && b.next == b.last
  {
    if size == 0 then Buttons(false, false, false, false, NoImages)
    else
      var position := if pos == -1 then size else pos + 1;
      var forward := pos != -1 && pos < size - 1;
      var backward := size > 1 && (pos > 0 || pos == -1);
      Buttons(backward, backward, forward, forward, ImageOf(position, size))
  }

  /** Each button is enabled exactly when pressing it would show a
      different entry. */
  lemma ButtonsEnableMoves(size: nat, pos: int)
    requires ValidPosition(size, pos)
    ensures ButtonsFor(size, pos).first <==> size > 0 && Displayed(size, FirstPosition(size, pos)) != Displayed(size, pos)
    ensures ButtonsFor(size, pos).prev <==> size > 0 && Displayed(size, PrevPosition(size, pos)) != Displayed(size, pos)
    ensures ButtonsFor(size, pos).next <==> size > 0 && Displayed(size, NextPosition(size, pos)) != Displayed(size, pos)
    ensures ButtonsFor(size, pos).last <==> size > 0 && Displayed(size, LastPosition(size, pos)) != Displayed(size, pos)
  {
  }

  /** The enabling rules as the front end states them. */
  lemma ButtonRules(size: nat, pos: int)
    ensures ButtonsFor(size, pos).next <==> size > 0 && pos != -1 && pos < size - 1
    ensures ButtonsFor(size, pos).first <==> size > 1 && (pos > 0 || pos == -1)
  {
  }

  // ---------------------------------------------------------------------
  // The window
  // ---------------------------------------------------------------------

  /** The file name label: blank, or set for the file at `path`. */
  datatype FilenameLabel = NoFilename | FilenameOf(path: string)

  /** What the label reads after "Filename: ": nothing, or the base name of
      the file, which has no directory part. */
  function FilenameText(l: FilenameLabel): (t: string)
    ensures '/' !in t
    ensures l.NoFilename? ==> t == ""
    ensures l.FilenameOf? && '/' !in l.path ==> t == l.path
    ensures l.FilenameOf? ==> |t| <= |l.path| && t == l.path[|l.path| - |t|..]
    ensures l.FilenameOf? && t != l.path ==> l.path[|l.path| - |t| - 1] == '/'
  {
    match l
    case NoFilename => ""
    case FilenameOf(path) => AfterLastShape(path, '/'); Basename(path)
  }

  /** The caption label: the caption itself, "No caption generated" for an
      empty caption, or "No caption generated yet" before anything is shown. */
  datatype CaptionLabel = CaptionShown(text: string) | NoCaptionGenerated | NoCaptionYet

  /** The caption label for a shown entry (`caption or "No caption generated"`). */
  function CaptionText(caption: string): (t: CaptionLabel)
    ensures t != NoCaptionYet
    ensures t.CaptionShown? <==> caption != ""
    ensures t.CaptionShown? ==> t.text == caption
  {
    if caption == "" then NoCaptionGenerated else CaptionShown(caption)
  }

  /** `ImageIndexerGUI`, reduced to the result browser. */
  class ImageIndexerGui {
    var imageHistory: seq<HistoryEntry>
    var currentPosition: int
    /** The entry whose image, file name and caption are on screen. */
    var shown: Option<HistoryEntry>
    var filenameLabel: FilenameLabel
    var captionLabel: CaptionLabel
    var buttons: Buttons
    /** `previous_image_data`, `previous_caption`, ... as one entry. */
    var previous: Option<HistoryEntry>
    var apiIsReady: bool
    const keywordsWidget: KeywordWidget

    /** What the preview panel shows: the blank panel, or an entry's file
        name, caption and keywords. */
    ghost predicate Screen(e: Option<HistoryEntry>)
      reads this, keywordsWidget
    {
      match e
      case None =>
        && filenameLabel == NoFilename && captionLabel == NoCaptionYet
        && keywordsWidget.keywords == [] && keywordsWidget.rows == []
      case Some(entry) =>
        && filenameLabel == FilenameOf(entry.filename)
        && captionLabel == CaptionText(entry.caption)
        && keywordsWidget.keywords == entry.keywords
        && keywordsWidget.rows == Layout(entry.keywords)
    }

    /** The browser's invariant: the cursor is valid, the buttons match
        it, and the screen shows the entry under the cursor (or the blank
        panel while the history is empty). */
    ghost predicate Valid()
      reads this, keywordsWidget
    {
      && ValidPosition(|imageHistory|, currentPosition)
      && buttons == ButtonsFor(|imageHistory|, currentPosition)
      && shown == (if |imageHistory| == 0 then None
                   else Some(imageHistory[Displayed(|imageHistory|, currentPosition)]))
      && Screen(shown)
    }

    constructor ()
      ensures Valid() && fresh(keywordsWidget)
      ensures imageHistory == [] && currentPosition == -1 && !apiIsReady && previous == None
    {
      imageHistory := [];
      currentPosition := -1;
      shown := None;
      filenameLabel := NoFilename;
      captionLabel := NoCaptionYet;
      buttons := Buttons(false, false, false, false, NoImages);
      previous := None;
      apiIsReady := false;
      keywordsWidget := new KeywordWidget();
    }

    /** `update_api_status`. */
    method UpdateApiStatus(isAvailable: bool)
      modifies this`apiIsReady
      ensures apiIsReady == isAvailable
    {
      apiIsReady := isAvailable;
    }

    /** `update_navigation_buttons`. */
    method UpdateNavigationButtons()
      modifies this`buttons
      ensures buttons == ButtonsFor(|imageHistory|, currentPosition)
    {
      buttons := ButtonsFor(|imageHistory|, currentPosition);
    }

    /** `display_image`: puts the entry on screen and refreshes the buttons. */
    method DisplayImage(e: HistoryEntry)
      modifies this`shown, this`filenameLabel, this`captionLabel, this`buttons, keywordsWidget
      ensures shown == Some(e) && Screen(shown)
      ensures buttons == ButtonsFor(|imageHistory|, currentPosition)
    {
      shown := Some(e);
      filenameLabel := FilenameOf(e.filename);
      captionLabel := CaptionText(e.caption);
      keywordsWidget.SetKeywords(e.keywords);
      UpdateNavigationButtons();
    }

    /** `update_image_preview`: the entry joins the history; it is shown
        when the browser was following the newest entry. */
    method UpdateImagePreview(image: string, caption: string, keywords: seq<string>, filename: string)
      requires Valid()
      modifies this`previous, this`imageHistory, this`currentPosition, this`shown, this`filenameLabel, this`captionLabel, this`buttons, keywordsWidget
      ensures Valid()
      ensures imageHistory == old(imageHistory) + [HistoryEntry(image, caption, keywords, filename)]
      ensures currentPosition == AfterAppend(|imageHistory|, old(currentPosition))
      ensures previous == Some(HistoryEntry(image, caption, keywords, filename))
      ensures old(currentPosition) == -1 ==> shown == Some(HistoryEntry(image, caption, keywords, filename))
      ensures old(currentPosition) != -1 ==> shown == old(shown)
      ensures apiIsReady == old(apiIsReady)
    {
      var e := HistoryEntry(image, caption, keywords, filename);
      previous := Some(e);
      imageHistory := imageHistory + [e];
      if currentPosition == -1 || |imageHistory| <= 1 {
        currentPosition := -1;
        DisplayImage(e);
      } else {
        UpdateNavigationButtons();
      }
    }

    /** `navigate_first`. */
    method NavigateFirst()
      requires Valid()
      modifies this`currentPosition, this`shown, this`filenameLabel, this`captionLabel, this`buttons, keywordsWidget
      ensures Valid()
      ensures imageHistory == old(imageHistory) && previous == old(previous) && apiIsReady == old(apiIsReady)
      ensures currentPosition == FirstPosition(|imageHistory|, old(currentPosition))
    {
      if imageHistory != [] {
        currentPosition := 0;
        DisplayImage(imageHistory[0]);
      }
    }

    /** `navigate_prev`. */
    method NavigatePrev()
      requires Valid()
      modifies this`currentPosition, this`shown, this`filenameLabel, this`captionLabel, this`buttons, keywordsWidget
      ensures Valid()
      ensures imageHistory == old(imageHistory) && previous == old(previous) && apiIsReady == old(apiIsReady)
      ensures currentPosition == PrevPosition(|imageHistory|, old(currentPosition))
    {
      if imageHistory == [] {
        return;
      }
      if currentPosition == -1 {
        if |imageHistory| > 1 {
          currentPosition := |imageHistory| - 2;
          DisplayImage(imageHistory[currentPosition]);
        }
      } else if currentPosition > 0 {
        currentPosition := currentPosition - 1;
        DisplayImage(imageHistory[currentPosition]);
      }
    }

    /** `navigate_next`. */
    method NavigateNext()
      requires Valid()
      modifies this`currentPosition, this`shown, this`filenameLabel, this`captionLabel, this`buttons, keywordsWidget
      ensures Valid()
      ensures imageHistory == old(imageHistory) && previous == old(previous) && apiIsReady == old(apiIsReady)
      ensures currentPosition == NextPosition(|imageHistory|, old(currentPosition))
    {
      if imageHistory == [] {
        return;
      }
      if currentPosition != -1 && currentPosition < |imageHistory| - 1 {
        currentPosition := currentPosition + 1;
        if currentPosition == |imageHistory| - 1 {
          currentPosition := -1;
        }
        DisplayImage(imageHistory[if currentPosition == -1 then |imageHistory| - 1 else currentPosition]);
      }
    }

    /** `navigate_last`. */
    method NavigateLast()
      requires Valid()
      modifies this`currentPosition, this`shown, this`filenameLabel, this`captionLabel, this`buttons, keywordsWidget
      ensures Valid()
      ensures imageHistory == old(imageHistory) && previous == old(previous) && apiIsReady == old(apiIsReady)
      ensures currentPosition == LastPosition(|imageHistory|, old(currentPosition))
    {
      if imageHistory != [] {
        currentPosition := -1;
        DisplayImage(imageHistory[|imageHistory| - 1]);
      }
    }

    /** The browser part of `run_indexer`: without a ready API nothing
        happens; otherwise the history and the panel are reset before the
        run starts. `started` says whether a run was started. */
    method RunIndexer() returns (started: bool)
      requires Valid()
      modifies this`imageHistory, this`currentPosition, this`shown, this`filenameLabel, this`captionLabel, this`buttons, keywordsWidget
      ensures Valid()
      ensures started == old(apiIsReady)
      ensures !started ==> imageHistory == old(imageHistory) && currentPosition == old(currentPosition) && shown == old(shown)
      ensures started ==> imageHistory == [] && currentPosition == -1 && shown == None
      ensures previous == old(previous) && apiIsReady == old(apiIsReady)
    {
      if !apiIsReady {
        return false;
      }
      imageHistory := [];
      currentPosition := -1;
      UpdateNavigationButtons();
      ClearPreview();
      started := true;
    }

    /** The preview reset in `run_indexer`: no image, "Filename: ", "No
        caption generated yet", and an empty keyword panel. */
    method ClearPreview()
      modifies this`shown, this`filenameLabel, this`captionLabel, keywordsWidget
      ensures shown == None && Screen(shown)
    {
      shown := None;
      filenameLabel := NoFilename;
      captionLabel := NoCaptionYet;
      keywordsWidget.Clear();
    }
  }
}
