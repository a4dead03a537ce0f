/// The pure parts of `OutfitModel`: client-side validation of a new outfit
/// post and the item count shown with a post.
module OutfitModel {
  import opened Text
  import opened WebTypes

  /** `CreateOutfitPostRequest`, with the fields validation reads. */
  datatype CreateOutfitPostRequest = CreateOutfitPostRequest(
    items: seq<string>,
    description: string,
    tags: seq<string>,
    temperature: real,
    location: string,
    imageUrl: string)

  const ItemsRequired: string := "少なくとも1つのアイテムが必要です"
  const DescriptionRequired: string := "コーディネートの説明が必要です"
  const DescriptionTooLong: string := "説明は500文字以内で入力してください"
  const LocationRequired: string := "場所の情報が必要です"
  const MaxDescriptionLength: nat := 500

  /** The position of each message in the fixed checking order. */
  function Rank(message: string): (k: nat)
    ensures k < 4
  {
    if message == ItemsRequired then 0
    else if message == DescriptionRequired then 1
    else if message == DescriptionTooLong then 2
    else 3
  }

  /** The four messages are distinct, and each has its own rank. */
  lemma MessagesDistinct()
    ensures Rank(ItemsRequired) == 0 && Rank(DescriptionRequired) == 1
    ensures Rank(DescriptionTooLong) == 2 && Rank(LocationRequired) == 3
  {
    assert ItemsRequired[0] == '少' && DescriptionRequired[0] == 'コ';
    assert DescriptionTooLong[0] == '説' && LocationRequired[0] == '場';
  }

  /** The messages `validateOutfitPost` collects, in checking order. */
  function ValidationErrors(outfit: CreateOutfitPostRequest): (r: seq<string>)
    ensures |r| <= 4
    ensures forall m :: m in r ==> m in {ItemsRequired, DescriptionRequired, DescriptionTooLong, LocationRequired}
  {
    (if |outfit.items| == 0 then [ItemsRequired] else [])
    + (if IsBlank(outfit.description) then [DescriptionRequired] else [])
    + (if |outfit.description| > MaxDescriptionLength then [DescriptionTooLong] else [])
    + (if IsBlank(outfit.location) then [LocationRequired] else [])
  }

  /** Each check reports its message exactly when it fails, and a request is
      accepted exactly when all four checks pass. */
  lemma ValidationErrorsMeaning(outfit: CreateOutfitPostRequest)
    ensures ValidationErrors(outfit) == [] <==>
              |outfit.items| > 0 && !IsBlank(outfit.description)
              && |outfit.description| <= MaxDescriptionLength && !IsBlank(outfit.location)
    ensures ItemsRequired in ValidationErrors(outfit) <==> |outfit.items| == 0
    ensures DescriptionRequired in ValidationErrors(outfit) <==> IsBlank(outfit.description)
    ensures DescriptionTooLong in ValidationErrors(outfit) <==> |outfit.description| > MaxDescriptionLength
    ensures LocationRequired in ValidationErrors(outfit) <==> IsBlank(outfit.location)
  {
    MessagesDistinct();
  }

  /** The messages come in the fixed order items, description required,
      description too long, location. */
  lemma ValidationErrorsOrdered(outfit: CreateOutfitPostRequest)
    ensures forall i, j :: 0 <= i < j < |ValidationErrors(outfit)| ==>
              Rank(ValidationErrors(outfit)[i]) < Rank(ValidationErrors(outfit)[j])
  {
    MessagesDistinct();
    var e := ValidationErrors(outfit);
    forall i | 0 <= i < |e| ensures e[i] in [ItemsRequired, DescriptionRequired, DescriptionTooLong, LocationRequired] {
    }
  }

  /** A whitespace-only description over the limit fails both description
      checks. */
  lemma BlankLongDescription(outfit: CreateOutfitPostRequest)
    requires IsBlank(outfit.description) && |outfit.description| > MaxDescriptionLength
    ensures DescriptionRequired in ValidationErrors(outfit) && DescriptionTooLong in ValidationErrors(outfit)
  {
    ValidationErrorsMeaning(outfit);
  }

  /** `validateOutfitPost`: pushes one message per failed check. A missing or
      trimmed-empty string is `IsBlank`, which `Trim`'s contract equates with
      an empty trim. */
  method ValidateOutfitPost(outfit: CreateOutfitPostRequest) returns (errors: seq<string>)
    ensures errors == ValidationErrors(outfit)
  {
    errors := [];
    if |outfit.items| == 0 {
      errors := errors + [ItemsRequired];
    }
    if IsBlank(outfit.description) {
      errors := errors + [DescriptionRequired];
    }
    if outfit.description != "" && |outfit.description| > MaxDescriptionLength {
      errors := errors + [DescriptionTooLong];
    }
    if IsBlank(outfit.location) {
      errors := errors + [LocationRequired];
    }
  }
}
