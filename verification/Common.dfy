/** Shapes shared by every module: optional values, outcomes and the error codes of the services. */
module Common {

  datatype Option<+T> = None | Some(value: T)

  datatype Result<+T> = Ok(value: T) | Err(error: Error)

  // One constructor per distinct refusal of the services; several messages of the source
  // that differ only in wording share a constructor.
  datatype Error =
    | LinkUnavailable
    | LinkNotFound
    | LinkAlreadyActive
    | StatusNotAllowed
    | DraftVersionConflict
    | DraftMissing
    | SupplementOnly
    | TemplateNotPublished
    | SigningExpired
    | ChangedSinceVerification
    | PreviewOutdated
    | PreviewMissing
    | ResourceMissing
    | SealOriginalMissing
    | BindingInvalid
    | PlacementInvalid
    | DeclarationMissing
    | RequirementUnknown
    | FileTooLarge
    | FileCountExceeded
    | CapacityExceeded
    | FileNotFound
    | ReviewAssignmentChanged
    | ReviewIncomplete
    | ReviewLocked
    | ReasonRequired
    | SigningMissing
    | JobIdentityMismatch
    | CaseNotFinalizing
    | SigningInvalid
    | OutputMissing
    | LeaseLost
    | DigestMismatch
    | JournalFencingRejected
    | JournalMismatch
    | FencingRejected
    | NotInFailedState
    | FailedTaskNotFound
    | FinalizationTaskNotFound
    | FinalizationDbChanged
    | FinalizationGateFailed
    | FinalizationStateChanged
    | StorageKeyTaken
    | StorageKeyInvalid
    | StorageLimitExceeded
    | StorageMissing
    | ContentAddressMismatch
    | ContentAddressImmutable
    | OverlayPageMismatch
    | TemplateRejected
}
