/**
 * The `Patient` value object of full.py: one spreadsheet row, its columns
 * copied field by field and never changed afterwards.  A missing cell (NaN)
 * is `None`; device identifiers, strings of the row, are kept as strings.
 */
module PatientRecord {
  import opened Wrappers

  /** A device identifier as found in the `Device_*` / `*_dev*` columns. */
  type DeviceId = string

  /** The row, column by column (the column name is given beside each field). */
  datatype Patient = Patient(
    id: string,                  // User_ID
    age: Option<real>,           // Age
    gender: string,              // Gender
    weight: Option<real>,        // Weight
    height: Option<real>,        // Height
    alcohol: Option<string>,     // Alcohol_Consumption
    heart: Option<real>,         // Heart_Rate
    devheart: DeviceId,          // Device_heart
    devblood: DeviceId,          // Device_blood
    devcalorie: DeviceId,        // calorie_device
    devtem: DeviceId,            // tem_dev
    blood: Option<real>,         // Blood_Oxygen_Level
    calorie: Option<real>,       // Calories_Intake
    temp: Option<real>,          // Skin_Temperature
    bodyfat: Option<real>,       // Body_Fat_Percentage
    timestamp: string,           // Timestamp1
    muscle: Option<real>,        // Muscle_Mass
    devmuscle: DeviceId,         // muscle_dv
    stress: string,              // Stress_Level
    waterIntake: Option<real>,   // Water_Intake
    disease: Option<string>,     // Medical_Conditions
    mood: string,                // Mood
    normalsleep: Option<real>,   // Sleep_Duration
    deepsleep: Option<real>,     // Deep_Sleep_Duration
    remsleep: Option<real>,      // REM_Sleep_Duration
    wakeup: Option<real>,        // Wakeups
    devsleep: DeviceId,          // devsleep
    score: Option<real>          // Health_Score
  )
}
