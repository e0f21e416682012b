/**
 * The registration record threaded through the three phases of the wizard,
 * and the form store that holds it while the phase components write to it.
 * The field set is the one the validation schemas check: the mandate and
 * product type of phase 1, the personal details of phase 2 and the banking
 * details and consents of phase 3.
 */
module FormData {

  datatype EMandateFormData = EMandateFormData(
    // Phase 1: choose your plan
    mandateType: string,
    productType: string,
    // Phase 2: your details
    firstName: string,
    lastName: string,
    email: string,
    phone: string,
    idNumber: string,
    idType: string,
    // Phase 3: set up payment
    bankName: string,
    accountType: string,
    accountNumber: string,
    branchCode: string,
    termsAccepted: bool,
    privacyAccepted: bool)

  /** The record's field names, used as the paths of validation issues. */
  datatype Field =
    | MandateType | ProductType
    | FirstName | LastName | Email | Phone | IdNumber | IdType
    | BankName | AccountType | AccountNumber | BranchCode | TermsAccepted | PrivacyAccepted

  /** The shared form store every phase component reads and writes. */
  class FormStore {
    var data: EMandateFormData

    constructor (initial: EMandateFormData)
      ensures data == initial
    {
      data := initial;
    }
  }
}
