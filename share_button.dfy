/**
 * The share dialog: its own copy of the life-expectancy estimate, the
 * capped progress percentage embedded in the share text and in the
 * download's file name, and the guards around capturing and sharing the
 * grid image.
 */
module ShareButton {
  import opened Wrappers
  import opened Profiles
  import opened LifeProgress
  import LifeCalculator
  import Decimal

  /** The component's private copy of `getLifeExpectancy`, with the same switch and adjustments. */
  method GetLifeExpectancy(nationality: string, healthyFood: bool, running: bool, alcohol: bool, smoking: bool)
    returns (baseExpectancy: int)
    ensures baseExpectancy == LifeCalculator.LifeExpectancy(nationality, healthyFood, running, alcohol, smoking)
  {
    baseExpectancy := 80;
    match nationality {
      case "jp" => baseExpectancy := 84;
      case "us" => baseExpectancy := 78;
      case "es" => baseExpectancy := 83;
      case _ => baseExpectancy := 80;
    }
    if healthyFood { baseExpectancy := baseExpectancy + 2; }
    if running { baseExpectancy := baseExpectancy + 3; }
    if alcohol { baseExpectancy := baseExpectancy - 2; }
    if smoking { baseExpectancy := baseExpectancy - 5; }
  }

  const SharePrefix := "I've lived "
  const ShareSuffix := "% of my life according to Life Visualizer. Check out your own life progress!"
  const FilePrefix := "life-visualization-"
  const FileSuffix := "%.png"

  function ShareText(progressPercentage: int): string {
    SharePrefix + Decimal.IntToString(progressPercentage) + ShareSuffix
  }

  function DownloadName(progressPercentage: int): string {
    FilePrefix + Decimal.IntToString(progressPercentage) + FileSuffix
  }

  /** The text between a known prefix and suffix, if the text has both. */
  function Between(s: string, prefix: string, suffix: string): (r: Option<string>)
    ensures r.Some? ==> s == prefix + r.value + suffix
  {
    if |prefix| + |suffix| <= |s| && s[..|prefix|] == prefix && s[|s| - |suffix|..] == suffix then
      var mid := s[|prefix|..|s| - |suffix|];
      assert s == s[..|prefix|] + mid + s[|s| - |suffix|..];
      Some(mid)
    else
      None
  }

  lemma BetweenParts(prefix: string, mid: string, suffix: string)
    ensures Between(prefix + mid + suffix, prefix, suffix) == Some(mid)
  {
    var s := prefix + mid + suffix;
    assert s[..|prefix|] == prefix;
    assert s[|s| - |suffix|..] == suffix;
    assert s[|prefix|..|s| - |suffix|] == mid;
  }

  /** The percentage a share text or file name carries. */
  function ReadPercentage(s: string, prefix: string, suffix: string): Option<int> {
    match Between(s, prefix, suffix)
    case None => None
    case Some(mid) => Decimal.ParseInt(mid)
  }

  /** The share text and the download name both carry the same percentage, and it can be read back from either. */
  lemma PercentageEmbedded(progressPercentage: int)
    ensures ReadPercentage(ShareText(progressPercentage), SharePrefix, ShareSuffix) == Some(progressPercentage)
    ensures ReadPercentage(DownloadName(progressPercentage), FilePrefix, FileSuffix) == Some(progressPercentage)
  {
    BetweenParts(SharePrefix, Decimal.IntToString(progressPercentage), ShareSuffix);
    BetweenParts(FilePrefix, Decimal.IntToString(progressPercentage), FileSuffix);
    Decimal.IntRoundTrip(progressPercentage);
  }

  /** Different percentages give different file names. */
  lemma DownloadNameInjective(p: int, q: int)
    requires DownloadName(p) == DownloadName(q)
    ensures p == q
  {
    PercentageEmbedded(p);
    PercentageEmbedded(q);
  }

  /** What the dialog derives from the profile. */
  datatype ShareModel = ShareModel(lifeExpectancy: int, progressPercentage: int, shareText: string, fileName: string)

  /** `ShareButton` renders nothing without a profile; otherwise it derives the texts from the capped percentage. */
  function RenderShare(userData: Option<Profile>, age: int): (r: Option<ShareModel>)
    ensures r.None? <==> userData.None?
    ensures r.Some? ==> r.value.progressPercentage <= 100
  {
    match userData
    case None => None
    case Some(p) =>
      var lifeExpectancy := LifeCalculator.LifeExpectancy(p.nationality, p.healthyFood, p.running, p.alcohol, p.smoking);
      LifeCalculator.ExpectancyRange(p.nationality, p.healthyFood, p.running, p.alcohol, p.smoking);
      var progressPercentage := CappedPercent(age, lifeExpectancy);
      Some(ShareModel(lifeExpectancy, progressPercentage, ShareText(progressPercentage), DownloadName(progressPercentage)))
  }

  // ================================================================ capture and share

  /** A page a handler opens; `encodeURIComponent` is left out, the parts are kept as they are. */
  datatype Link = TweetIntent(text: string, url: string) | WhatsAppMessage(text: string)

  /** What the handlers do outside the component: toasts, new tabs, downloads. */
  datatype Effect =
    | ErrorToast(message: string)
    | SuccessToast(message: string)
    | OpenTab(link: Link)
    | DownloadFile(href: string, fileName: string)

  /** How one attempt of `captureScreenshot` ends. */
  datatype CaptureOutcome = Captured(imageData: string) | NoElement | CaptureFailed

  /** What the dialog shows where the image goes. */
  datatype Preview = CapturingNotice | ImagePreview(src: string) | PreparingNotice

  const WaitMessage := "Please wait for image to be captured first."
  const NoImageMessage := "No image to download. Please wait for capture to complete."
  const NoElementMessage := "Could not find the life grid to capture. Please try again."
  const CaptureFailedMessage := "Failed to capture screenshot. Please try again."
  const TwitterMessage := "Redirected to X (Twitter). Save and attach the captured image to your tweet!"
  const WhatsAppMessageText := "Redirected to WhatsApp. Save and attach the captured image to your message!"
  const DownloadedMessage := "Image downloaded successfully!"

  function CaptureToasts(outcome: CaptureOutcome): seq<Effect> {
    match outcome
    case Captured(_) => []
    case NoElement => [ErrorToast(NoElementMessage)]
    case CaptureFailed => [ErrorToast(CaptureFailedMessage)]
  }

  /** The dialog's state (`isCapturing`, `capturedImage`, `isOpen`) and the effects it has had. */
  class ShareDialog {
    var isCapturing: bool
    var capturedImage: Option<string>
    var isOpen: bool
    var effects: seq<Effect>
    const progressPercentage: int
    const shareUrl: string

    constructor (progressPercentage: int, shareUrl: string)
      ensures !isCapturing && capturedImage == None && !isOpen && effects == []
      ensures this.progressPercentage == progressPercentage && this.shareUrl == shareUrl
    {
      isCapturing := false;
      capturedImage := None;
      isOpen := false;
      effects := [];
      this.progressPercentage := progressPercentage;
      this.shareUrl := shareUrl;
    }

    /** `capturedImage` is truthy: present and not the empty string. */
    predicate HasImage()
      reads this
    {
      capturedImage.Some? && capturedImage.value != ""
    }

    /** The auto-capture effect's guard. */
    predicate CaptureDue()
      reads this
    {
      isOpen && !HasImage() && !isCapturing
    }

    /** The share and download buttons are enabled only with an image and no capture running. */
    predicate ButtonsEnabled()
      reads this
    {
      !isCapturing && HasImage()
    }

    /** The preview: a notice while capturing, else the image if there is one, else a waiting notice. */
    function PreviewShown(): (r: Preview)
      reads this
      ensures r == CapturingNotice <==> isCapturing
      ensures r.ImagePreview? <==> ButtonsEnabled()
      ensures r.ImagePreview? ==> Some(r.src) == capturedImage
    {
      if isCapturing then CapturingNotice
      else if HasImage() then ImagePreview(capturedImage.value)
      else PreparingNotice
    }

    /** `onOpenChange`. */
    method SetOpen(open: bool)
      modifies this
      ensures isOpen == open
      ensures isCapturing == old(isCapturing) && capturedImage == old(capturedImage) && effects == old(effects)
    {
      isOpen := open;
    }

    /** The effect on `[isOpen, capturedImage, isCapturing]`: start a capture only when one is due. */
    method AutoCapture() returns (started: bool)
      modifies this
      ensures started == old(CaptureDue())
      ensures isCapturing == (old(isCapturing) || started)
      ensures capturedImage == old(capturedImage) && isOpen == old(isOpen) && effects == old(effects)
    {
      started := CaptureDue();
      if started {
        isCapturing := true;
      }
    }

    /**
     * The end of `captureScreenshot`: the image is kept only on success,
     * a failure toasts its message, and `finally` clears `isCapturing`
     * in every case. After a failure with the dialog still open the guard
     * holds again, so the effect starts another attempt.
     */
    method FinishCapture(outcome: CaptureOutcome)
      requires isCapturing
      modifies this
      ensures !isCapturing && isOpen == old(isOpen)
      ensures capturedImage == (if outcome.Captured? then Some(outcome.imageData) else old(capturedImage))
      ensures effects == old(effects) + CaptureToasts(outcome)
      ensures !outcome.Captured? && isOpen && !old(HasImage()) ==> CaptureDue()
    {
      match outcome {
        case Captured(imageData) => capturedImage := Some(imageData);
        case NoElement => effects := effects + [ErrorToast(NoElementMessage)];
        case CaptureFailed => effects := effects + [ErrorToast(CaptureFailedMessage)];
      }
      isCapturing := false;
    }

    method ShareToTwitter()
      modifies this
      ensures isCapturing == old(isCapturing) && capturedImage == old(capturedImage) && isOpen == old(isOpen)
      ensures !HasImage() ==> effects == old(effects) + [ErrorToast(WaitMessage)]
      ensures HasImage() ==>
        effects == old(effects) + [OpenTab(TweetIntent(ShareText(progressPercentage), shareUrl)), SuccessToast(TwitterMessage)]
    {
      if !HasImage() {
        effects := effects + [ErrorToast(WaitMessage)];
        return;
      }
      effects := effects + [OpenTab(TweetIntent(ShareText(progressPercentage), shareUrl))];
      effects := effects + [SuccessToast(TwitterMessage)];
    }

    method ShareToWhatsApp()
      modifies this
      ensures isCapturing == old(isCapturing) && capturedImage == old(capturedImage) && isOpen == old(isOpen)
      ensures !HasImage() ==> effects == old(effects) + [ErrorToast(WaitMessage)]
      ensures HasImage() ==>
        effects == old(effects) + [OpenTab(WhatsAppMessage(ShareText(progressPercentage) + " " + shareUrl)), SuccessToast(WhatsAppMessageText)]
    {
      if !HasImage() {
        effects := effects + [ErrorToast(WaitMessage)];
        return;
      }
      effects := effects + [OpenTab(WhatsAppMessage(ShareText(progressPercentage) + " " + shareUrl))];
      effects := effects + [SuccessToast(WhatsAppMessageText)];
    }

    method DownloadImage()
      modifies this
      ensures isCapturing == old(isCapturing) && capturedImage == old(capturedImage) && isOpen == old(isOpen)
      ensures !HasImage() ==> effects == old(effects) + [ErrorToast(NoImageMessage)]
      ensures HasImage() ==>
        effects == old(effects) + [DownloadFile(capturedImage.value, DownloadName(progressPercentage)), SuccessToast(DownloadedMessage)]
    {
      if !HasImage() {
        effects := effects + [ErrorToast(NoImageMessage)];
        return;
      }
      effects := effects + [DownloadFile(capturedImage.value, DownloadName(progressPercentage))];
      effects := effects + [SuccessToast(DownloadedMessage)];
    }
  }

  /**
   * Opening a fresh dialog starts one capture; once it delivers an image
   * the buttons are enabled and the effect starts no second capture.
   */
  method OpenAndCapture(progressPercentage: int, shareUrl: string, imageData: string) returns (d: ShareDialog)
    requires imageData != ""
    ensures d.ButtonsEnabled() && !d.CaptureDue()
    ensures d.PreviewShown() == ImagePreview(imageData)
    ensures d.effects == []
  {
    d := new ShareDialog(progressPercentage, shareUrl);
    d.SetOpen(true);
    var started := d.AutoCapture();
    assert started;
    d.FinishCapture(Captured(imageData));
    var again := d.AutoCapture();
    assert !again;
  }
}
