/** The two plain field holders the predictors read: a patient profile and one
    health record. Java's nullable strings and dates are Options. */
module HealthData {
  import opened Wrappers
  import opened JavaInt

  /** A calendar day (java.time.LocalDate), counted from a fixed epoch day. */
  type Date = int

  datatype Patient = Patient(
    patientId: int,
    firstName: Option<string>,
    lastName: Option<string>,
    dateOfBirth: Option<Date>,
    existingConditions: Option<string>,
    allergies: Option<string>,
    medications: Option<string>)

  datatype HealthRecord = HealthRecord(
    recordId: int,
    patientId: int,
    recordDate: Option<Date>,
    heartRate: real,
    systolicBP: real,
    diastolicBP: real,
    bloodSugar: real,
    cholesterol: real,
    temperature: real,
    symptoms: Option<string>,
    diagnosis: Option<string>,
    medication: Option<string>,
    smokingStatus: Option<string>,
    exerciseFrequency: Option<string>,
    stressLevel: Int32,
    notes: Option<string>)
}
