/** src/pages/PrepareNft.tsx: the four-step wizard that prepares a theme NFT. */
module PrepareNft {

  import opened Wrappers
  import opened Text
  import opened CollectionInfoState
  import opened UploadedUrls

  const FirstStep: int := 1
  const LastStep: int := 4

  /** `isFormValid`: the wizard's own check of the current step. */
  predicate IsStepValid(step: int, info: CollectionInfo, hasNftIcon: bool, uploaded: seq<UploadedUrl>) {
    if step == 1 then
      !IsBlank(info.collectionName) && !IsBlank(info.description) && !IsBlank(info.author) && !IsBlank(info.sponsor)
    else if step == 2 then hasNftIcon
    else if step == 3 then AnyOfType(uploaded, Icon)
    else step == 4
  }

  /** Step 3 is valid once an icon was uploaded, step 4 always, and a step
      outside 1..4 never. */
  lemma StepValidity(step: int, info: CollectionInfo, hasNftIcon: bool, uploaded: seq<UploadedUrl>)
    ensures step == 3 ==> (IsStepValid(step, info, hasNftIcon, uploaded) <==> FirstUrlOfType(uploaded, Icon).Some?)
    ensures step == 4 ==> IsStepValid(step, info, hasNftIcon, uploaded)
    ensures step < 1 || step > 4 ==> !IsStepValid(step, info, hasNftIcon, uploaded)
  {
    AnyOfTypeIffFound(uploaded, Icon);
  }

  datatype NextResult = NotOffered | Disabled | Moved

  datatype BackResult = NavigatedAway | SteppedBack

  class NftWizard {
    var currentStep: int
    var hasNftIcon: bool

    ghost predicate Valid()
      reads this
    {
      FirstStep <= currentStep <= LastStep
    }

    constructor ()
      ensures Valid() && currentStep == FirstStep && !hasNftIcon
    {
      currentStep := FirstStep;
      hasNftIcon := false;
    }

    /** The Next button: shown only before the last step and enabled only when
        the step is valid; its handler for step k sets step k + 1. */
    method PressNext(info: CollectionInfo, uploaded: seq<UploadedUrl>) returns (r: NextResult)
      requires Valid()
      modifies this`currentStep
      ensures Valid()
      ensures old(currentStep) >= LastStep ==> r == NotOffered
      ensures old(currentStep) < LastStep && !IsStepValid(old(currentStep), info, hasNftIcon, uploaded) ==>
        r == Disabled
      ensures r == Moved <==>
        old(currentStep) < LastStep && IsStepValid(old(currentStep), info, hasNftIcon, uploaded)
      ensures r == Moved ==> currentStep == old(currentStep) + 1
      ensures r != Moved ==> currentStep == old(currentStep)
    {
      if currentStep >= LastStep {
        return NotOffered;
      }
      if !IsStepValid(currentStep, info, hasNftIcon, uploaded) {
        return Disabled;
      }
      if currentStep == 1 {
        currentStep := 2;
      } else if currentStep == 2 {
        currentStep := 3;
      } else {
        currentStep := 4;
      }
      return Moved;
    }

    /** The Back button: leaves the page from step 1, otherwise goes one step back. */
    method PressBack() returns (r: BackResult)
      requires Valid()
      modifies this`currentStep
      ensures Valid()
      ensures old(currentStep) == FirstStep <==> r == NavigatedAway
      ensures r == NavigatedAway ==> currentStep == old(currentStep)
      ensures r == SteppedBack ==> currentStep == old(currentStep) - 1
    {
      if currentStep == 1 {
        return NavigatedAway;
      } else if currentStep == 2 {
        currentStep := 1;
      } else if currentStep == 3 {
        currentStep := 2;
      } else {
        currentStep := 3;
      }
      return SteppedBack;
    }

    /** `NftImagesForm`'s `onNftIconChange`. */
    method SetHasNftIcon(present: bool)
      modifies this`hasNftIcon
      ensures hasNftIcon == present
    {
      hasNftIcon := present;
    }
  }
}
