/**
 * The record shapes shared by the views and the gateway
 * (src/interface/Patient.ts, src/interface/Prescription.ts, src/types/types.ts).
 * They carry no behaviour of their own.
 */
module Records {
  /** A patient as the remote system lists it; `id` is server-assigned. */
  datatype Patient = Patient(id: int, fullName: string, dateOfBirth: string)

  /** A stored prescription; `id` is server-assigned. */
  datatype Prescription = Prescription(
    id: int, patientId: int, drugName: string, dosage: string, datePrescribed: string)

  /** The body of a create call: a prescription without its `id`. */
  datatype NewPrescription = NewPrescription(
    patientId: int, drugName: string, dosage: string, datePrescribed: string)
}
