/**
 * The camera source's start/stop life cycle as its unit test pins it down, with
 * the test's mock frame grabber and mock grabber factory, and the four tests.
 * The source itself is described only through what the tests assert of it.
 */
module CameraSources {
  import opened Outcomes

  /** The mock frame's shape: 480 rows of 640 + 1 columns of 3 channels. */
  const Rows: nat := 480
  const Cols: nat := 640 + 1
  const Channels: nat := 3

  /**
   * The test's frame grabber: it holds one synthetic frame whose element at
   * (y, x, z) is y + x + z (at most 1121, so the frame's 16-bit depth keeps every
   * value), and fails to start exactly when told to.
   */
  class MockFrameGrabber {
    const frame: array3<int>
    var shouldThrowAtStart: bool

    constructor ()
      ensures fresh(frame) && !shouldThrowAtStart
      ensures frame.Length0 == Rows && frame.Length1 == Cols && frame.Length2 == Channels
      ensures forall y, x, z :: 0 <= y < Rows && 0 <= x < Cols && 0 <= z < Channels ==> frame[y, x, z] == y + x + z
    {
      var f := new int[Rows, Cols, Channels];
      var y := 0;
      while y < Rows
        invariant 0 <= y <= Rows
        invariant forall y', x', z' :: 0 <= y' < y && 0 <= x' < Cols && 0 <= z' < Channels ==> f[y', x', z'] == y' + x' + z'
      {
        var x := 0;
        while x < Cols
          invariant 0 <= x <= Cols
          invariant forall y', x', z' :: 0 <= y' < y && 0 <= x' < Cols && 0 <= z' < Channels ==> f[y', x', z'] == y' + x' + z'
          invariant forall x', z' :: 0 <= x' < x && 0 <= z' < Channels ==> f[y, x', z'] == y + x' + z'
        {
          var z := 0;
          while z < Channels
            invariant 0 <= z <= Channels
            invariant forall y', x', z' :: 0 <= y' < y && 0 <= x' < Cols && 0 <= z' < Channels ==> f[y', x', z'] == y' + x' + z'
            invariant forall x', z' :: 0 <= x' < x && 0 <= z' < Channels ==> f[y, x', z'] == y + x' + z'
            invariant forall z' :: 0 <= z' < z ==> f[y, x, z'] == y + x + z'
          {
            f[y, x, z] := y + x + z;
            z := z + 1;
          }
          x := x + 1;
        }
        y := y + 1;
      }
      frame := f;
      shouldThrowAtStart := false;
    }

    /** `start`: throws exactly when `shouldThrowAtStart` is set. */
    method Start() returns (r: Outcome)
      ensures r.Thrown? <==> shouldThrowAtStart
      ensures r.Thrown? ==> r.error == FrameGrabberException
    {
      if shouldThrowAtStart {
        return Thrown(FrameGrabberException);
      }
      return Done;
    }

    /** `grab`: the same frame every time. */
    method Grab() returns (f: array3<int>)
      ensures f == frame
    {
      f := frame;
    }

    method SetShouldThrowAtStart(shouldThrow: bool)
      modifies this
      ensures shouldThrowAtStart == shouldThrow
    {
      shouldThrowAtStart := shouldThrow;
    }
  }

  /** The test's grabber factory: one grabber, handed out for every device number and address. */
  class MockFrameGrabberFactory {
    const frameGrabber: MockFrameGrabber

    constructor ()
      ensures fresh(frameGrabber) && !frameGrabber.shouldThrowAtStart
    {
      frameGrabber := new MockFrameGrabber();
    }

    method CreateForDevice(deviceNumber: int) returns (g: MockFrameGrabber)
      ensures g == frameGrabber
    {
      g := frameGrabber;
    }

    method CreateForAddress(address: string) returns (g: MockFrameGrabber)
      ensures g == frameGrabber
    {
      g := frameGrabber;
    }
  }

  /** A camera source over a grabber: stopped until started, at most one start at a time. */
  class CameraSource {
    const grabber: MockFrameGrabber
    var started: bool

    constructor (grabber: MockFrameGrabber)
      ensures this.grabber == grabber && !started
    {
      this.grabber := grabber;
      started := false;
    }

    method IsStarted() returns (b: bool)
      ensures b == started
    {
      b := started;
    }

    /**
     * `start`: a started source refuses with IllegalStateException and stays
     * started; otherwise a grabber that fails to start surfaces as an
     * IOException and the source stays stopped; otherwise the source is started.
     */
    method Start() returns (r: Outcome)
      modifies this
      ensures old(started) ==> r == Thrown(IllegalState) && started
      ensures !old(started) && grabber.shouldThrowAtStart ==> r == Thrown(IOException) && !started
      ensures !old(started) && !grabber.shouldThrowAtStart ==> r == Done && started
    {
      if started {
        return Thrown(IllegalState);
      }
      var grabberStart := grabber.Start();
      if grabberStart.Thrown? {
        return Thrown(IOException);
      }
      started := true;
      r := Done;
    }

    /** `stop`: permitted in either state; the source is stopped afterwards. */
    method Stop()
      modifies this
      ensures !started
    {
      started := false;
    }
  }

  predicate IsAlpha(c: char) { 'a' <= c <= 'z' || 'A' <= c <= 'Z' }

  predicate IsSchemeChar(c: char) { IsAlpha(c) || '0' <= c <= '9' || c == '+' || c == '-' || c == '.' }

  /** The characters `java.net.URL` strips from both ends of an address: U+0000 to U+0020. */
  predicate IsBlank(c: char) { c <= ' ' }

  /** The address without its leading blanks. */
  function TrimStart(s: string): (r: string)
    ensures |r| <= |s| && r == s[|s| - |r|..]
    ensures forall k :: 0 <= k < |s| - |r| ==> IsBlank(s[k])
    ensures |r| > 0 ==> !IsBlank(r[0])
    decreases |s|
  {
    if |s| > 0 && IsBlank(s[0]) then
      var r := TrimStart(s[1..]);
      assert r == s[|s| - |r|..];
      r
    else s
  }

  /** The address without its trailing blanks. */
  function TrimEnd(s: string): (r: string)
    ensures |r| <= |s| && r == s[..|r|]
    ensures forall k :: |r| <= k < |s| ==> IsBlank(s[k])
    ensures |r| > 0 ==> !IsBlank(r[|r| - 1])
    decreases |s|
  {
    if |s| > 0 && IsBlank(s[|s| - 1]) then
      var r := TrimEnd(s[..|s| - 1]);
      assert r == s[..|r|];
      r
    else s
  }

  function Trim(s: string): string
  {
    TrimEnd(TrimStart(s))
  }

  /** The address starts with `url:`, in any letter case. */
  predicate HasUrlPrefix(s: string)
  {
    |s| >= 4 && (s[0] == 'u' || s[0] == 'U') && (s[1] == 'r' || s[1] == 'R') && (s[2] == 'l' || s[2] == 'L') && s[3] == ':'
  }

  /** Where `java.net.URL` looks for the protocol: the trimmed address, past a leading `url:`. */
  function ProtocolText(address: string): string
  {
    var t := Trim(address);
    if HasUrlPrefix(t) then t[4..] else t
  }

  /**
   * A letter, then letters, digits, `+`, `-` or `.`, then `:` (the scheme of
   * section 3.1 of RFC 3986). The first `:` ends the scheme, and a `/` before it
   * means there is none, since neither is a scheme character.
   */
  predicate StartsWithScheme(s: string)
  {
    |s| > 0 && IsAlpha(s[0]) &&
    exists i :: 0 < i < |s| && s[i] == ':' && forall k :: 0 < k < i ==> IsSchemeChar(s[k])
  }

  /** `new URL(address)` finds a protocol in `address`. */
  predicate HasProtocol(address: string)
  {
    StartsWithScheme(ProtocolText(address))
  }

  /** The test's malformed address has no protocol: it holds no `:` at all. */
  lemma NotAUrlHasNoProtocol()
    ensures !HasProtocol("Not a URL at all!")
  {
    var s := "Not a URL at all!";
    assert TrimStart(s) == s;
    assert TrimEnd(s) == s;
    assert forall i :: 0 <= i < |s| ==> s[i] != ':';
  }

  /** Appending a blank to an address that is then trimmed changes nothing. */
  lemma {:induction false} TrimAppendBlank(s: string, c: char)
    requires IsBlank(c)
    ensures Trim(s + [c]) == Trim(s)
    decreases |s|
  {
    if |s| == 0 {
      assert TrimStart([c]) == TrimStart([c][1..]);
    } else if IsBlank(s[0]) {
      assert (s + [c])[1..] == s[1..] + [c];
      TrimAppendBlank(s[1..], c);
    } else {
      assert TrimStart(s + [c]) == s + [c];
      assert (s + [c])[..|s|] == s;
    }
  }

  /** A blank before or after an address does not change whether it has a protocol. */
  lemma SurroundingBlanksAreIgnored(s: string, c: char)
    requires IsBlank(c)
    ensures HasProtocol([c] + s) <==> HasProtocol(s)
    ensures HasProtocol(s + [c]) <==> HasProtocol(s)
  {
    assert ([c] + s)[1..] == s;
    TrimAppendBlank(s, c);
  }

  /** A leading `url:` is skipped once: the protocol is looked for in what follows it. */
  lemma UrlPrefixIsSkipped(s: string)
    requires |s| > 0 && !IsBlank(s[0]) && !IsBlank(s[|s| - 1]) && !HasUrlPrefix(s)
    ensures HasProtocol("url:" + s) <==> HasProtocol(s)
    ensures HasProtocol("URL:" + s) <==> HasProtocol(s)
  {
    assert Trim(s) == s;
    assert ProtocolText(s) == s;
    UrlPrefixOf(s, "url:");
    UrlPrefixOf(s, "URL:");
  }

  lemma UrlPrefixOf(s: string, prefix: string)
    requires |s| > 0 && !IsBlank(s[|s| - 1])
    requires HasUrlPrefix(prefix) && |prefix| == 4
    ensures ProtocolText(prefix + s) == s
  {
    var a := prefix + s;
    assert a[0] == prefix[0] && a[|a| - 1] == s[|s| - 1];
    assert TrimStart(a) == a;
    assert TrimEnd(a) == a;
    assert HasUrlPrefix(a);
    assert a[4..] == s;
  }

  /** `url:` alone names no protocol: nothing follows the prefix. */
  lemma UrlPrefixAloneHasNoProtocol()
    ensures !HasProtocol("url:")
  {
    var a := "url:";
    assert TrimStart(a) == a && TrimEnd(a) == a;
    assert ProtocolText(a) == [];
  }

  /**
   * Creating a camera source from an address: an address that does not parse
   * as a URL is refused with an IOException before anything starts.
   */
  method CreateFromAddress(address: string, grabbers: MockFrameGrabberFactory) returns (r: Result<CameraSource>)
    ensures r.Err? <==> !HasProtocol(address)
    ensures r.Err? ==> r.error == IOException
    ensures r.Ok? ==> fresh(r.value) && !r.value.started && r.value.grabber == grabbers.frameGrabber
  {
    if !HasProtocol(address) {
      return Err(IOException);
    }
    var g := grabbers.CreateForAddress(address);
    var source := new CameraSource(g);
    r := Ok(source);
  }

  /** The test fixture: a mock factory and a source on device 0 over its grabber. */
  method SetUp() returns (grabbers: MockFrameGrabberFactory, source: CameraSource)
    ensures fresh(grabbers) && fresh(grabbers.frameGrabber) && fresh(source)
    ensures !grabbers.frameGrabber.shouldThrowAtStart
    ensures source.grabber == grabbers.frameGrabber && !source.started
  {
    grabbers := new MockFrameGrabberFactory();
    var g := grabbers.CreateForDevice(0);
    source := new CameraSource(g);
  }

  method TestInvalidUrlThrowsIOException() returns (r: Result<CameraSource>)
    ensures r == Err(IOException)
  {
    var grabbers, _ := SetUp();
    NotAUrlHasNoProtocol();
    r := CreateFromAddress("Not a URL at all!", grabbers);
  }

  method TestCanStopAndStart() returns (afterStart: bool, afterStop: bool)
    ensures afterStart && !afterStop
  {
    var _, source := SetUp();
    var _ := source.Start();
    afterStart := source.IsStarted();
    source.Stop();
    afterStop := source.IsStarted();
  }

  method TestStartRethrowsIfFailure() returns (r: Outcome)
    ensures r == Thrown(IOException)
  {
    var grabbers, source := SetUp();
    grabbers.frameGrabber.SetShouldThrowAtStart(true);
    r := source.Start();
  }

  method TestStartingTwiceShouldThrowIllegalState() returns (first: Outcome, second: Outcome, afterStop: bool)
    ensures first == Done
    ensures second == Thrown(IllegalState)
    ensures !afterStop
  {
    var _, source := SetUp();
    first := source.Start();
    second := source.Start();
    source.Stop();
    afterStop := source.IsStarted();
  }
}
